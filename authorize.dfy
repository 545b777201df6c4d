/** The authorization request of the code flow (section 4.1.1 of RFC 6749):
    the URL the user is sent to, with its parameters in a fixed order. */
module Authorize {
  import opened Text
  import opened CallbackUrl

  /** The process-wide settings the flow reads, passed in explicitly. */
  datatype Config = Config(basePath: string, clientId: int, clientSecret: string, callbackURL: string)

  /** The access levels that can be requested. */
  datatype Permission = Public | ViewPrivate

  /** The token a permission is written as in the `scope` parameter. */
  function ScopeToken(p: Permission): (t: string)
    ensures QueryPlain(t) && t != []
  {
    match p
    case Public => "public"
    case ViewPrivate => "view_private"
  }

  /** Go's `OAuthAuthorizationURL`: the fixed parameters, then `state` when it
      is not empty, then `approval_prompt=force` when re-approval is forced.
      Nothing is escaped. */
  function AuthorizationURL(cfg: Config, state: string, scope: Permission, force: bool): string
  {
    var url := cfg.basePath + "/oauth/authorize?client_id=" + FormatInt(cfg.clientId)
      + "&response_type=code&redirect_uri=" + cfg.callbackURL + "&scope=" + ScopeToken(scope);
    var url := if state != [] then url + "&state=" + state else url;
    if force then url + "&approval_prompt=force" else url
  }

  // -------------------------------------------------------------------
  // The same URL read as a list of parameters
  // -------------------------------------------------------------------

  type Param = (string, string)

  /** The request parameters in the order they are written. */
  function AuthorizationParams(cfg: Config, state: string, scope: Permission, force: bool): seq<Param>
  {
    [("client_id", FormatInt(cfg.clientId)), ("response_type", "code"),
     ("redirect_uri", cfg.callbackURL), ("scope", ScopeToken(scope))]
    + (if state != [] then [("state", state)] else [])
    + (if force then [("approval_prompt", "force")] else [])
  }

  function Render(p: Param): string
  {
    p.0 + "=" + p.1
  }

  function RenderAll(ps: seq<Param>): (r: seq<string>)
    ensures |r| == |ps|
    ensures forall i | 0 <= i < |ps| :: r[i] == Render(ps[i])
  {
    if ps == [] then [] else [Render(ps[0])] + RenderAll(ps[1..])
  }

  /** `key=value` pairs joined with `&`, as a query string. */
  function EncodeQuery(ps: seq<Param>): string
  {
    Join(RenderAll(ps), '&')
  }

  lemma {:induction false} JoinAppend(parts: seq<string>, last: string)
    requires |parts| >= 1
    ensures Join(parts + [last], '&') == Join(parts, '&') + "&" + last
    decreases |parts|
  {
    var t := parts + [last];
    assert t[0] == parts[0] && |t| >= 2;
    if |parts| == 1 {
      assert t[1..] == [last];
    } else {
      assert t[1..] == parts[1..] + [last];
      JoinAppend(parts[1..], last);
    }
  }

  lemma RenderAllAppend(ps: seq<Param>, p: Param)
    ensures RenderAll(ps + [p]) == RenderAll(ps) + [Render(p)]
  {
  }

  /** Appending one parameter appends `&key=value` to the query. */
  lemma {:induction false} EncodeQueryAppend(ps: seq<Param>, p: Param)
    requires |ps| >= 1
    ensures EncodeQuery(ps + [p]) == EncodeQuery(ps) + "&" + p.0 + "=" + p.1
  {
    RenderAllAppend(ps, p);
    JoinAppend(RenderAll(ps), Render(p));
    assert EncodeQuery(ps) + "&" + Render(p) == EncodeQuery(ps) + "&" + p.0 + "=" + p.1;
  }

  lemma EncodeQuerySingle(p: Param)
    ensures EncodeQuery([p]) == p.0 + "=" + p.1
  {
  }

  /** `EncodeQueryAppend` with `&key=` spelled as one literal. */
  lemma EncodeQueryAppendAs(ps: seq<Param>, p: Param, lit: string)
    requires |ps| >= 1 && lit == "&" + p.0 + "="
    ensures EncodeQuery(ps + [p]) == EncodeQuery(ps) + lit + p.1
  {
    EncodeQueryAppend(ps, p);
  }

  /** The four fixed parameters make the query Go writes with one format string. */
  lemma FixedQuery(id: string, callback: string, tok: string)
    ensures EncodeQuery([("client_id", id), ("response_type", "code"), ("redirect_uri", callback), ("scope", tok)])
         == "client_id=" + id + "&response_type=code&redirect_uri=" + callback + "&scope=" + tok
  {
    FixedQueryPieces(id, callback, tok);
    LiteralResponseType();
    Regroup3("client_id=" + id, "&response_type=", "code", "&redirect_uri=", "&response_type=code&redirect_uri=",
      callback + "&scope=" + tok);
  }

  lemma FixedQueryPieces(id: string, callback: string, tok: string)
    ensures EncodeQuery([("client_id", id), ("response_type", "code"), ("redirect_uri", callback), ("scope", tok)])
         == "client_id=" + id + "&response_type=" + "code" + "&redirect_uri=" + callback + "&scope=" + tok
  {
    var p0, p1, p2, p3 := ("client_id", id), ("response_type", "code"), ("redirect_uri", callback), ("scope", tok);
    var q0 := EncodeQuery([p0]);
    var q1 := EncodeQuery([p0, p1]);
    var q2 := EncodeQuery([p0, p1, p2]);
    var q3 := EncodeQuery([p0, p1, p2, p3]);
    assert q0 == "client_id=" + id by {
      EncodeQuerySingle(p0);
      LiteralKey("client_id", "client_id=");
    }
    assert q1 == q0 + "&response_type=" + "code" by {
      assert [p0] + [p1] == [p0, p1];
      LiteralAmpKey("response_type", "&response_type=");
      EncodeQueryAppendAs([p0], p1, "&response_type=");
    }
    assert q2 == q1 + "&redirect_uri=" + callback by {
      assert [p0, p1] + [p2] == [p0, p1, p2];
      LiteralAmpKey("redirect_uri", "&redirect_uri=");
      EncodeQueryAppendAs([p0, p1], p2, "&redirect_uri=");
    }
    assert q3 == q2 + "&scope=" + tok by {
      assert [p0, p1, p2] + [p3] == [p0, p1, p2, p3];
      LiteralAmpKey("scope", "&scope=");
      EncodeQueryAppendAs([p0, p1, p2], p3, "&scope=");
    }
  }

  lemma Regroup3(x: string, a: string, b: string, c: string, abc: string, y: string)
    requires abc == a + b + c
    ensures x + a + b + c + y == x + abc + y
  {
  }

  lemma Regroup2(x: string, a: string, b: string, ab: string, y: string)
    requires ab == a + b
    ensures x + a + b + y == x + ab + y
  {
  }

  lemma LiteralKey(key: string, lit: string)
    requires key == "client_id" && lit == "client_id="
    ensures lit == key + "="
  {
  }

  lemma LiteralAmpKey(key: string, lit: string)
    requires || (key == "response_type" && lit == "&response_type=")
             || (key == "redirect_uri" && lit == "&redirect_uri=")
             || (key == "scope" && lit == "&scope=")
             || (key == "state" && lit == "&state=")
             || (key == "approval_prompt" && lit == "&approval_prompt=")
    ensures lit == "&" + key + "="
  {
  }

  lemma LiteralResponseType()
    ensures "&response_type=code&redirect_uri=" == "&response_type=" + "code" + "&redirect_uri="
  {
  }

  lemma LiteralAuthorize()
    ensures "/oauth/authorize?client_id=" == "/oauth/authorize?" + "client_id="
  {
  }

  lemma LiteralEndpoint(base: string, q: string)
    ensures base + "/oauth/authorize?" + q == base + "/oauth/authorize" + ['?'] + q
  {
    assert "/oauth/authorize?" == "/oauth/authorize" + ['?'];
  }

  lemma LiteralForce()
    ensures "&approval_prompt=force" == "&approval_prompt=" + "force"
  {
  }

  /** The URL is the authorize endpoint followed by exactly the parameter list,
      in its fixed order. */
  lemma {:induction false} AuthorizationURLParams(cfg: Config, state: string, scope: Permission, force: bool)
    ensures AuthorizationURL(cfg, state, scope, force)
         == cfg.basePath + "/oauth/authorize?" + EncodeQuery(AuthorizationParams(cfg, state, scope, force))
  {
    var id := FormatInt(cfg.clientId);
    var tok := ScopeToken(scope);
    var fixed := [("client_id", id), ("response_type", "code"), ("redirect_uri", cfg.callbackURL), ("scope", tok)];
    var head := cfg.basePath + "/oauth/authorize?";
    var url0 := cfg.basePath + "/oauth/authorize?client_id=" + id
      + "&response_type=code&redirect_uri=" + cfg.callbackURL + "&scope=" + tok;
    FixedURL(cfg.basePath, id, cfg.callbackURL, tok);
    var withState := fixed + (if state != [] then [("state", state)] else []);
    var url1 := if state != [] then url0 + "&state=" + state else url0;
    StateSuffix(head, url0, fixed, state);
    ForceSuffix(head, url1, withState, force);
  }

  lemma FixedURL(base: string, id: string, callback: string, tok: string)
    ensures base + "/oauth/authorize?client_id=" + id + "&response_type=code&redirect_uri=" + callback + "&scope=" + tok
         == base + "/oauth/authorize?"
            + EncodeQuery([("client_id", id), ("response_type", "code"), ("redirect_uri", callback), ("scope", tok)])
  {
    FixedQuery(id, callback, tok);
    LiteralAuthorize();
    Regroup2(base, "/oauth/authorize?", "client_id=", "/oauth/authorize?client_id=",
      id + "&response_type=code&redirect_uri=" + callback + "&scope=" + tok);
  }

  /** `&state=` is the query's next parameter, when there is a state. */
  lemma StateSuffix(head: string, url: string, ps: seq<Param>, state: string)
    requires |ps| >= 1 && url == head + EncodeQuery(ps)
    ensures (if state != [] then url + "&state=" + state else url)
         == head + EncodeQuery(ps + (if state != [] then [("state", state)] else []))
  {
    if state != [] {
      LiteralAmpKey("state", "&state=");
      EncodeQueryAppendAs(ps, ("state", state), "&state=");
    } else {
      assert ps + [] == ps;
    }
  }

  /** `&approval_prompt=force` is the query's last parameter, when forced. */
  lemma ForceSuffix(head: string, url: string, ps: seq<Param>, force: bool)
    requires |ps| >= 1 && url == head + EncodeQuery(ps)
    ensures (if force then url + "&approval_prompt=force" else url)
         == head + EncodeQuery(ps + (if force then [("approval_prompt", "force")] else []))
  {
    if force {
      LiteralAmpKey("approval_prompt", "&approval_prompt=");
      EncodeQueryAppendAs(ps, ("approval_prompt", "force"), "&approval_prompt=");
      LiteralForce();
    } else {
      assert ps + [] == ps;
    }
  }

  // -------------------------------------------------------------------
  // Reading the query back, as the provider does
  // -------------------------------------------------------------------

  /** A parameter that survives the trip through a query string unchanged. */
  predicate PlainParam(p: Param)
  {
    p.0 != [] && QueryPlain(p.0) && '=' !in p.0 && QueryPlain(p.1)
  }

  /** The query of a URL: what follows the first `?`, up to a `#`. */
  function QueryOf(url: string): string
  {
    CutAt(CutAt(url, '#').before, '?').after
  }

  lemma {:induction false} QueryPairsRender(ps: seq<Param>)
    requires forall p <- ps :: PlainParam(p)
    ensures QueryPairs(RenderAll(ps)) == ps
    decreases |ps|
  {
    if ps != [] {
      var pieces := RenderAll(ps);
      assert pieces[1..] == RenderAll(ps[1..]);
      assert QueryPairs(pieces[1..]) == ps[1..] by {
        assert forall q <- ps[1..] :: q in ps;
        QueryPairsRender(ps[1..]);
      }
      assert PlainParam(ps[0]) by { assert ps[0] in ps; }
      QueryPairsRenderStep(ps[0], pieces);
      assert ps == [ps[0]] + ps[1..];
    }
  }

  /** A plain `key=value` piece reads back as its own pair. */
  lemma QueryPairsRenderStep(p: Param, pieces: seq<string>)
    requires PlainParam(p) && pieces != [] && pieces[0] == Render(p)
    ensures QueryPairs(pieces) == [p] + QueryPairs(pieces[1..])
  {
    assert CutAt(Render(p), '=') == Cut(p.0, p.1, true) by {
      assert p.0 + "=" + p.1 == p.0 + ['='] + p.1;
      CutAtJoin(p.0, '=', p.1);
    }
    assert Render(p) != [] && ';' !in Render(p);
    QueryPlainUnescapes(p.0);
    QueryPlainUnescapes(p.1);
  }

  /** A query holding only plain parameters reads back as the same list. */
  lemma {:induction false} EncodeQueryRoundTrip(ps: seq<Param>)
    requires |ps| >= 1
    requires forall p <- ps :: PlainParam(p)
    ensures QueryPairs(Split(EncodeQuery(ps), '&')) == ps
  {
    var parts := RenderAll(ps);
    forall s <- parts
      ensures '&' !in s
    {
      var i :| 0 <= i < |parts| && parts[i] == s;
      assert ps[i] in ps;
    }
    SplitJoin(parts, '&');
    QueryPairsRender(ps);
  }

  /** The provider reads back every parameter as it was written: the redirect
      URI, the state (empty when none was sent) and the approval prompt. */
  lemma AuthorizationURLReadBack(cfg: Config, state: string, scope: Permission, force: bool)
    requires '?' !in cfg.basePath && '#' !in cfg.basePath
    requires QueryPlain(cfg.callbackURL) && QueryPlain(state)
    ensures var query := QueryOf(AuthorizationURL(cfg, state, scope, force));
      && QueryPairs(Split(query, '&')) == AuthorizationParams(cfg, state, scope, force)
      && FormValue(query, "client_id") == FormatInt(cfg.clientId)
      && FormValue(query, "response_type") == "code"
      && FormValue(query, "redirect_uri") == cfg.callbackURL
      && FormValue(query, "scope") == ScopeToken(scope)
      && FormValue(query, "state") == state
      && FormValue(query, "approval_prompt") == (if force then "force" else "")
  {
    var ps := AuthorizationParams(cfg, state, scope, force);
    QueryOfAuthorizationURL(cfg, state, scope, force);
    EncodeQueryRoundTrip(ps);
    LookupAuthorizationParams(cfg, state, scope, force);
  }

  /** The query the provider sees is the encoded parameter list. */
  lemma QueryOfAuthorizationURL(cfg: Config, state: string, scope: Permission, force: bool)
    requires '?' !in cfg.basePath && '#' !in cfg.basePath
    requires QueryPlain(cfg.callbackURL) && QueryPlain(state)
    ensures PlainParams(AuthorizationParams(cfg, state, scope, force))
    ensures QueryOf(AuthorizationURL(cfg, state, scope, force)) == EncodeQuery(AuthorizationParams(cfg, state, scope, force))
  {
    var ps := AuthorizationParams(cfg, state, scope, force);
    var q := EncodeQuery(ps);
    var url := AuthorizationURL(cfg, state, scope, force);
    assert PlainParams(ps) by {
      AuthorizationParamsPlain(cfg, state, scope, force);
    }
    var head := cfg.basePath + "/oauth/authorize";
    assert url == head + ['?'] + q by {
      AuthorizationURLParams(cfg, state, scope, force);
      LiteralEndpoint(cfg.basePath, q);
    }
    assert '#' !in head by {
      LiteralEndpointPlain(cfg.basePath);
    }
    assert '#' !in url by {
      EncodeQueryPlain(ps);
    }
    CutAtAbsent(url, '#');
    assert '?' !in head by {
      LiteralEndpointPlain(cfg.basePath);
    }
    CutAtJoin(head, '?', q);
  }

  lemma LiteralEndpointPlain(base: string)
    requires '?' !in base && '#' !in base
    ensures '?' !in base + "/oauth/authorize" && '#' !in base + "/oauth/authorize"
  {
  }

  /** Every parameter of the authorization request is plain when the callback
      URL and the state are. */
  lemma AuthorizationParamsPlain(cfg: Config, state: string, scope: Permission, force: bool)
    requires QueryPlain(cfg.callbackURL) && QueryPlain(state)
    ensures PlainParams(AuthorizationParams(cfg, state, scope, force))
  {
    FormatIntPlain(cfg.clientId);
    PlainKeys();
  }

  lemma PlainKeys()
    ensures PlainParam(("client_id", "")) && PlainParam(("response_type", "code"))
    ensures PlainParam(("redirect_uri", "")) && PlainParam(("scope", ""))
    ensures PlainParam(("state", "")) && PlainParam(("approval_prompt", "force"))
  {
    PlainClientId();
    PlainResponseType();
    PlainRedirectUri();
    PlainScope();
    PlainState();
    PlainApprovalPrompt();
  }

  lemma PlainClientId() ensures PlainParam(("client_id", "")) {}
  lemma PlainResponseType() ensures PlainParam(("response_type", "code")) {}
  lemma PlainRedirectUri() ensures PlainParam(("redirect_uri", "")) {}
  lemma PlainScope() ensures PlainParam(("scope", "")) {}
  lemma PlainState() ensures PlainParam(("state", "")) {}
  lemma PlainApprovalPrompt() ensures PlainParam(("approval_prompt", "force")) {}

  /** Each parameter is found under its own key; an absent one reads as empty. */
  lemma LookupAuthorizationParams(cfg: Config, state: string, scope: Permission, force: bool)
    ensures var ps := AuthorizationParams(cfg, state, scope, force);
      && Lookup(ps, "client_id") == FormatInt(cfg.clientId)
      && Lookup(ps, "response_type") == "code"
      && Lookup(ps, "redirect_uri") == cfg.callbackURL
      && Lookup(ps, "scope") == ScopeToken(scope)
      && Lookup(ps, "state") == state
      && Lookup(ps, "approval_prompt") == (if force then "force" else "")
  {
    LookupLeadingParams(cfg, state, scope, force);
    LookupTrailingParams(cfg, state, scope, force);
  }

  /** The four parameters every authorization URL carries. */
  lemma LookupLeadingParams(cfg: Config, state: string, scope: Permission, force: bool)
    ensures var ps := AuthorizationParams(cfg, state, scope, force);
      && Lookup(ps, "client_id") == FormatInt(cfg.clientId)
      && Lookup(ps, "response_type") == "code"
      && Lookup(ps, "redirect_uri") == cfg.callbackURL
      && Lookup(ps, "scope") == ScopeToken(scope)
  {
    var c, r := ("client_id", FormatInt(cfg.clientId)), ("response_type", "code");
    var u, s := ("redirect_uri", cfg.callbackURL), ("scope", ScopeToken(scope));
    var tail := (if state != [] then [("state", state)] else []) + (if force then [("approval_prompt", "force")] else []);
    DistinctKeys();
    assert AuthorizationParams(cfg, state, scope, force) == [c, r, u, s] + tail;
    LookupFour(c, r, u, s, tail);
  }

  /** In a list led by four parameters with distinct keys, each is found. */
  lemma LookupFour(c: Param, r: Param, u: Param, s: Param, tail: seq<Param>)
    requires c.0 != r.0 && c.0 != u.0 && c.0 != s.0 && r.0 != u.0 && r.0 != s.0 && u.0 != s.0
    ensures var ps := [c, r, u, s] + tail;
      Lookup(ps, c.0) == c.1 && Lookup(ps, r.0) == r.1 && Lookup(ps, u.0) == u.1 && Lookup(ps, s.0) == s.1
  {
    var ps := [c, r, u, s] + tail;
    assert ps == [c] + ([r, u, s] + tail);
    LookupPast([c], [r, u, s] + tail, r.0);
    assert ps == [c, r] + ([u, s] + tail);
    LookupPast([c, r], [u, s] + tail, u.0);
    assert ps == [c, r, u] + ([s] + tail);
    LookupPast([c, r, u], [s] + tail, s.0);
  }

  /** The two optional parameters. */
  lemma LookupTrailingParams(cfg: Config, state: string, scope: Permission, force: bool)
    ensures var ps := AuthorizationParams(cfg, state, scope, force);
      && Lookup(ps, "state") == state
      && Lookup(ps, "approval_prompt") == (if force then "force" else "")
  {
    var c, r := ("client_id", FormatInt(cfg.clientId)), ("response_type", "code");
    var u, s := ("redirect_uri", cfg.callbackURL), ("scope", ScopeToken(scope));
    var tail := (if state != [] then [("state", state)] else []) + (if force then [("approval_prompt", "force")] else []);
    var ps := AuthorizationParams(cfg, state, scope, force);
    DistinctKeys();
    assert ps == [c, r, u, s] + tail;
    LookupPast([c, r, u, s], tail, "state");
    LookupPast([c, r, u, s], tail, "approval_prompt");
    LookupReadsStateAndPrompt(tail, state, force);
  }

  /** Pairs under other keys in front do not change what is found. */
  lemma {:induction false} LookupPast(head: seq<Param>, tail: seq<Param>, key: string)
    requires forall p <- head :: p.0 != key
    ensures Lookup(head + tail, key) == Lookup(tail, key)
    decreases |head|
  {
    if head != [] {
      assert (head + tail)[1..] == head[1..] + tail;
      assert head[0] in head;
      assert forall p <- head[1..] :: p in head;
      LookupPast(head[1..], tail, key);
    } else {
      assert head + tail == tail;
    }
  }

  /** The keys differ from one another. */
  lemma DistinctKeys()
    ensures "client_id" != "redirect_uri" && "client_id" != "scope" && "client_id" != "state"
    ensures "client_id" != "approval_prompt" && "client_id" != "response_type"
    ensures "response_type" != "redirect_uri"
    ensures "response_type" != "scope" && "response_type" != "state" && "response_type" != "approval_prompt"
    ensures "redirect_uri" != "scope" && "redirect_uri" != "state" && "redirect_uri" != "approval_prompt"
    ensures "scope" != "state" && "scope" != "approval_prompt"
  {
    assert "scope"[1] != "state"[1];
  }

  predicate PlainParams(ps: seq<Param>)
  {
    forall p <- ps :: PlainParam(p)
  }

  lemma FormatIntPlain(n: int)
    ensures QueryPlain(FormatInt(n))
  {
    FormatIntAlphabet(n);
  }

  /** No fragment mark appears in a query made of plain parameters. */
  lemma {:induction false} EncodeQueryPlain(ps: seq<Param>)
    requires PlainParams(ps)
    ensures '#' !in EncodeQuery(ps)
  {
    var parts := RenderAll(ps);
    forall s <- parts
      ensures '#' !in s
    {
      var i :| 0 <= i < |parts| && parts[i] == s;
      assert ps[i] in ps;
    }
    JoinAvoids(parts, '&', '#');
  }

  lemma {:induction false} JoinAvoids(parts: seq<string>, sep: char, c: char)
    requires c != sep && forall p <- parts :: c !in p
    ensures c !in Join(parts, sep)
    decreases |parts|
  {
    if |parts| > 1 {
      assert parts[0] in parts;
      assert forall p <- parts[1..] :: p in parts;
      JoinAvoids(parts[1..], sep, c);
    } else if |parts| == 1 {
      assert parts[0] in parts;
    }
  }

  lemma LookupReadsStateAndPrompt(tail: seq<Param>, state: string, force: bool)
    requires tail == (if state != [] then [("state", state)] else []) + (if force then [("approval_prompt", "force")] else [])
    ensures Lookup(tail, "state") == state
    ensures Lookup(tail, "approval_prompt") == (if force then "force" else "")
  {
  }

  // -------------------------------------------------------------------
  // The asserted URLs: client id 0 and the callback `http://abc.com/strava/oauth`
  // -------------------------------------------------------------------

  function ExampleConfig(base: string, secret: string): Config
  {
    Config(base, 0, secret, "http://abc.com/strava/oauth")
  }

  /** With a state and no forced approval: the literal of oauth_test.go:161. */
  lemma AuthorizationURLExampleState(base: string, secret: string)
    ensures AuthorizationURL(ExampleConfig(base, secret), "state", Public, false)
         == base + "/oauth/authorize?client_id=0" + "&response_type=code" + "&redirect_uri=http://abc.com/strava/oauth"
            + "&scope=public" + "&state=state"
  {
    ExampleFixed(base, Public);
    LiteralScope();
    LiteralState();
  }

  /** Forced approval comes last, after the state: the literal of oauth_test.go:166. */
  lemma AuthorizationURLExampleForce(base: string, secret: string)
    ensures AuthorizationURL(ExampleConfig(base, secret), "state", Public, true)
         == base + "/oauth/authorize?client_id=0" + "&response_type=code" + "&redirect_uri=http://abc.com/strava/oauth"
            + "&scope=public" + "&state=state" + "&approval_prompt=force"
  {
    ExampleFixed(base, Public);
    LiteralScope();
    LiteralState();
  }

  /** The private scope: the literal of oauth_test.go:171. */
  lemma AuthorizationURLExamplePrivate(base: string, secret: string)
    ensures AuthorizationURL(ExampleConfig(base, secret), "state", ViewPrivate, false)
         == base + "/oauth/authorize?client_id=0" + "&response_type=code" + "&redirect_uri=http://abc.com/strava/oauth"
            + "&scope=view_private" + "&state=state"
  {
    ExampleFixed(base, ViewPrivate);
    LiteralScope();
    LiteralState();
  }

  /** An empty state leaves the parameter out: the literal of oauth_test.go:176. */
  lemma AuthorizationURLExampleNoState(base: string, secret: string)
    ensures AuthorizationURL(ExampleConfig(base, secret), "", Public, false)
         == base + "/oauth/authorize?client_id=0" + "&response_type=code" + "&redirect_uri=http://abc.com/strava/oauth"
            + "&scope=public"
  {
    ExampleFixed(base, Public);
    LiteralScope();
  }

  /** The fixed part for client 0 and the example callback, split at each `&`. */
  lemma ExampleFixed(base: string, scope: Permission)
    ensures base + "/oauth/authorize?client_id=" + FormatInt(0) + "&response_type=code&redirect_uri="
            + "http://abc.com/strava/oauth" + "&scope=" + ScopeToken(scope)
         == base + "/oauth/authorize?client_id=0" + "&response_type=code" + "&redirect_uri=http://abc.com/strava/oauth"
            + "&scope=" + ScopeToken(scope)
  {
    var id := FormatInt(0);
    assert id == "0" by {
      assert Digits(0) == ['0'];
    }
    var m1 := "/oauth/authorize?client_id=0";
    assert m1 == "/oauth/authorize?client_id=" + id by {
      LiteralClientZero();
    }
    assert "&response_type=code" + "&redirect_uri=http://abc.com/strava/oauth"
        == "&response_type=code&redirect_uri=" + "http://abc.com/strava/oauth" by {
      LiteralRedirect();
    }
    Shape(base, "/oauth/authorize?client_id=", id, "&response_type=code&redirect_uri=", "http://abc.com/strava/oauth",
      "&scope=", ScopeToken(scope), m1, "&response_type=code", "&redirect_uri=http://abc.com/strava/oauth");
  }

  lemma Shape(base: string, l1: string, id: string, l2: string, cb: string, s1: string, s2: string,
               m1: string, r1: string, r2: string)
    requires m1 == l1 + id && r1 + r2 == l2 + cb
    ensures base + l1 + id + l2 + cb + s1 + s2 == base + m1 + r1 + r2 + s1 + s2
  {
    var x := base + m1;
    assert base + l1 + id == x;
    assert x + l2 + cb == x + (r1 + r2);
  }

  lemma LiteralClientZero()
    ensures "/oauth/authorize?client_id=0" == "/oauth/authorize?client_id=" + "0"
  {
  }

  lemma LiteralRedirect()
    ensures "&response_type=code" + "&redirect_uri=http://abc.com/strava/oauth"
         == "&response_type=code&redirect_uri=" + "http://abc.com/strava/oauth"
  {
  }

  lemma LiteralScope()
    ensures "&scope=" + "public" == "&scope=public"
    ensures "&scope=" + "view_private" == "&scope=view_private"
  {
  }

  lemma LiteralState()
    ensures "&state=" + "state" == "&state=state"
  {
  }
}
