/** The redirect endpoint of the code flow (sections 4.1.2 to 4.1.4 of RFC 6749):
    Go's `OAuthCallbackHandler` reads the inbound callback, trades the code for
    a token, and hands exactly one outcome to one of two continuations. */
module Callback {
  import opened Wrappers
  import opened Text
  import opened StravaErrors
  import opened CallbackUrl
  import opened Authorize

  // -------------------------------------------------------------------
  // Values exchanged with the provider
  // -------------------------------------------------------------------

  /** The athlete profile sent with the token; its fields are not modelled. */
  datatype AthleteProfile = AthleteProfile(fields: seq<(string, string)>)

  /** The decoded answer of a successful code exchange. */
  datatype AuthorizationResponse = AuthorizationResponse(accessToken: string, athlete: AthleteProfile)

  /** What decoding an all-empty JSON object `{}` gives. */
  const EmptyAuthorization := AuthorizationResponse([], AthleteProfile([]))

  /** A response body, given by what JSON decoding makes of it as each of the
      two shapes the handler reads it as: the error envelope and the
      authorization response (a failure carries the decoder's message). */
  datatype Body = Body(asError: Result<Error, string>, asAuthorization: Result<AuthorizationResponse, string>)

  /** What the HTTP client returns for the token request. */
  datatype Exchange =
    | TransportFailure(reason: string)     // no HTTP answer at all
    | Response(status: int, body: Body)

  /** The form posted to the token endpoint (section 4.1.3 of RFC 6749). */
  datatype TokenRequest = TokenRequest(url: string, clientId: string, clientSecret: string, code: string, grantType: string)

  /** Everything the failure continuation can receive. The first four are the
      sentinels, compared by identity in Go; `Structured` is the upstream
      `*Error`; the last two pass the underlying error through. */
  datatype Failure =
    | Denied
    | ServerError
    | InvalidCredentials
    | InvalidCode
    | Structured(err: Error)
    | TransportError(reason: string)
    | ParseError(reason: string)

  /** Which continuation fires, and with what. */
  datatype Outcome = Authorized(auth: AuthorizationResponse) | Failed(failure: Failure)

  /** The value of the callback's `error` parameter when the user refused. */
  const AccessDenied := "access_denied"

  // -------------------------------------------------------------------
  // The decision, as a function of the callback and the exchange
  // -------------------------------------------------------------------

  /** Go's integer division, which truncates toward zero. */
  function Quot(a: int, b: int): int
    requires b > 0
  {
    if a >= 0 then a / b else -((-a) / b)
  }

  /** The status class `status / 100` as the handler computes it: 5 exactly
      for the 5xx codes and 2 exactly for the 2xx codes, for every integer. */
  lemma StatusClass(status: int)
    ensures Quot(status, 100) == 5 <==> 500 <= status <= 599
    ensures Quot(status, 100) == 2 <==> 200 <= status <= 299
  {
    if status >= 0 {
      assert 100 * (status / 100) <= status < 100 * (status / 100) + 100;
    } else {
      assert -status >= 1;
      assert 0 <= (-status) / 100;
    }
  }

  /** The sentinel an upstream error envelope stands for: none listed means a
      server error, and only the first entry's resource is looked at. */
  function ClassifyEnvelope(env: Error): (r: Failure)
    ensures r == ServerError <==> |env.errors| == 0
    ensures r in {ServerError, InvalidCredentials, InvalidCode} || r == Structured(env)
  {
    if |env.errors| == 0 then ServerError
    else if env.errors[0].resource == "Application" then InvalidCredentials
    else if env.errors[0].resource == "RequestToken" then InvalidCode
    else Structured(env)
  }

  /** The outcome of one callback, given its `error` parameter and what the
      token exchange returned (which a denied callback never makes). */
  function Classify(errorParam: string, exchange: Exchange): (r: Outcome)
    ensures r.Authorized? ==> exchange.Response? && exchange.body.asAuthorization == Success(r.auth)
    ensures r.Failed? && r.failure.TransportError? ==> exchange == TransportFailure(r.failure.reason)
    ensures r.Failed? && r.failure.ParseError? ==>
      && exchange.Response?
      && (exchange.body.asError == Failure(r.failure.reason) || exchange.body.asAuthorization == Failure(r.failure.reason))
  {
    if errorParam == AccessDenied then Failed(Denied)
    else match exchange
      case TransportFailure(reason) => Failed(TransportError(reason))
      case Response(status, body) =>
        if Quot(status, 100) == 5 then Failed(ServerError)
        else if Quot(status, 100) != 2 then
          match body.asError
          case Failure(reason) => Failed(ParseError(reason))
          case Success(env) => Failed(ClassifyEnvelope(env))
        else
          match body.asAuthorization
          case Failure(reason) => Failed(ParseError(reason))
          case Success(auth) => Authorized(auth)
  }

  /** The token request a callback leads to: client credentials, the code
      from the callback's query, and the grant type of section 4.1.3. */
  function TokenRequestFor(cfg: Config, rawQuery: string): (r: TokenRequest)
    ensures ParseInt(r.clientId) == Some(cfg.clientId)
    ensures r.code == FormValue(rawQuery, "code")
    ensures r.clientSecret == cfg.clientSecret && r.grantType == "authorization_code"
  {
    ParseFormatInt(cfg.clientId);
    TokenRequest(cfg.basePath + "/oauth/token", FormatInt(cfg.clientId), cfg.clientSecret,
      FormValue(rawQuery, "code"), "authorization_code")
  }

  // -------------------------------------------------------------------
  // The properties the handler's tests assert, for all inputs
  // -------------------------------------------------------------------

  /** A refused authorization fails with the denied sentinel, whatever the
      exchange would have returned. */
  lemma ClassifyDenied(exchange: Exchange)
    ensures Classify(AccessDenied, exchange) == Failed(Denied)
  {
  }

  /** A transport failure is passed through as it is. */
  lemma ClassifyTransport(errorParam: string, reason: string)
    requires errorParam != AccessDenied
    ensures Classify(errorParam, TransportFailure(reason)) == Failed(TransportError(reason))
  {
  }

  /** Every 5xx status is a server error, whatever the body. */
  lemma ClassifyServerStatus(errorParam: string, status: int, body: Body)
    requires errorParam != AccessDenied && 500 <= status <= 599
    ensures Classify(errorParam, Response(status, body)) == Failed(ServerError)
  {
    StatusClass(status);
  }

  /** Outside 2xx and 5xx the body is read as an error envelope. */
  lemma ClassifyErrorStatus(errorParam: string, status: int, body: Body)
    requires errorParam != AccessDenied
    requires !(200 <= status <= 299) && !(500 <= status <= 599)
    ensures Classify(errorParam, Response(status, body))
         == match body.asError
            case Failure(reason) => Failed(ParseError(reason))
            case Success(env) => Failed(ClassifyEnvelope(env))
  {
    StatusClass(status);
  }

  /** An envelope without entries is a server error; otherwise the first
      entry's resource decides between the two sentinels and the envelope. */
  lemma EnvelopeCases(env: Error)
    ensures |env.errors| == 0 ==> ClassifyEnvelope(env) == ServerError
    ensures |env.errors| > 0 ==>
      ClassifyEnvelope(env) == (match env.errors[0].resource
        case "Application" => InvalidCredentials
        case "RequestToken" => InvalidCode
        case _ => Structured(env))
  {
  }

  /** Only the first entry's resource matters: envelopes that agree on it
      get the same sentinel, or are each returned whole. */
  lemma EnvelopeFirstResourceDecides(e1: Error, e2: Error)
    requires |e1.errors| > 0 && |e2.errors| > 0
    requires e1.errors[0].resource == e2.errors[0].resource
    ensures ClassifyEnvelope(e1).Structured? == ClassifyEnvelope(e2).Structured?
    ensures !ClassifyEnvelope(e1).Structured? ==> ClassifyEnvelope(e1) == ClassifyEnvelope(e2)
    ensures ClassifyEnvelope(e1).Structured? ==> ClassifyEnvelope(e1).err == e1
  {
  }

  /** The success continuation fires exactly for a 2xx answer whose body
      decodes as an authorization response, and receives that response. */
  lemma ClassifyAuthorized(errorParam: string, exchange: Exchange)
    ensures Classify(errorParam, exchange).Authorized?
        <==> errorParam != AccessDenied && exchange.Response? && 200 <= exchange.status <= 299
             && exchange.body.asAuthorization.Success?
    ensures Classify(errorParam, exchange).Authorized?
        ==> Classify(errorParam, exchange).auth == exchange.body.asAuthorization.value
  {
    if exchange.Response? {
      StatusClass(exchange.status);
    }
  }

  /** A 2xx body that does not decode is passed on as the decoder's error. */
  lemma ClassifyUndecodable(errorParam: string, status: int, body: Body)
    requires errorParam != AccessDenied && 200 <= status <= 299 && body.asAuthorization.Failure?
    ensures Classify(errorParam, Response(status, body)) == Failed(ParseError(body.asAuthorization.error))
  {
    StatusClass(status);
  }

  // -------------------------------------------------------------------
  // The error handed to the failure continuation
  // -------------------------------------------------------------------

  /** The sentinel a failure is, if it is one. */
  function SentinelOf(f: Failure): Option<OAuthError>
  {
    match f
    case Denied => Some(AuthorizationDeniedErr)
    case ServerError => Some(ServerErr)
    case InvalidCredentials => Some(InvalidCredentialsErr)
    case InvalidCode => Some(InvalidCodeErr)
    case _ => None
  }

  /** Go's `err.Error()` for each failure. */
  function FailureText(f: Failure): string
  {
    match f
    case Structured(e) => ErrorText(e)
    case TransportError(reason) => reason
    case ParseError(reason) => reason
    case _ => SentinelOf(f).value.Text()
  }

  /** Distinct failures of the four sentinel kinds are distinct sentinels,
      and a structured error is none of them, neither by identity nor by its
      text, which is a JSON object. */
  lemma SentinelsDistinct(f: Failure, g: Failure, e: Error)
    requires SentinelOf(f).Some? && SentinelOf(g).Some? && f != g
    ensures SentinelOf(f) != SentinelOf(g)
    ensures SentinelOf(Structured(e)).None?
    ensures FailureText(Structured(e)) != SentinelOf(f).value.Text()
  {
    var t := SentinelOf(f).value.Text();
    assert t[0] != '{' by {
      assert AuthorizationDeniedErr.message[0] == 'a' && ServerErr.message[0] == 's';
      assert InvalidCredentialsErr.message[0] == 'i' && InvalidCodeErr.message[0] == 'u';
    }
    assert ErrorText(e)[0] == '{';
  }

  // -------------------------------------------------------------------
  // The handler, with the HTTP client and the continuations as objects
  // -------------------------------------------------------------------

  /** An HTTP client that answers every token request the same way and
      keeps the requests it was sent. */
  class StubClient {
    var requests: seq<TokenRequest>
    const reply: Exchange

    constructor (reply: Exchange)
      ensures requests == [] && this.reply == reply
    {
      requests := [];
      this.reply := reply;
    }

    /** Go's `httpClient.PostForm` to the token endpoint. */
    method PostForm(req: TokenRequest) returns (x: Exchange)
      modifies this
      ensures requests == old(requests) + [req] && x == reply
    {
      requests := requests + [req];
      x := reply;
    }
  }

  /** The success and failure continuations, logging each call in order. */
  class Continuations {
    var calls: seq<Outcome>

    constructor ()
      ensures calls == []
    {
      calls := [];
    }

    method OnSuccess(auth: AuthorizationResponse)
      modifies this
      ensures calls == old(calls) + [Authorized(auth)]
    {
      calls := calls + [Authorized(auth)];
    }

    method OnFailure(f: Failure)
      modifies this
      ensures calls == old(calls) + [Failed(f)]
    {
      calls := calls + [Failed(f)];
    }
  }

  /** Go's `OAuthCallbackHandler` for one request with the given raw query:
      a denied callback sends nothing, any other sends exactly one token
      request; exactly one continuation fires, with the classified outcome. */
  method HandleCallback(cfg: Config, rawQuery: string, client: StubClient, k: Continuations)
    modifies client, k
    ensures FormValue(rawQuery, "error") == AccessDenied ==> client.requests == old(client.requests)
    ensures FormValue(rawQuery, "error") != AccessDenied
        ==> client.requests == old(client.requests) + [TokenRequestFor(cfg, rawQuery)]
    ensures k.calls == old(k.calls) + [Classify(FormValue(rawQuery, "error"), client.reply)]
  {
    if FormValue(rawQuery, "error") == AccessDenied {
      k.OnFailure(Denied);
      return;
    }
    var exchange := client.PostForm(TokenRequestFor(cfg, rawQuery));
    if exchange.TransportFailure? {
      k.OnFailure(TransportError(exchange.reason));
      return;
    }
    if Quot(exchange.status, 100) == 5 {
      k.OnFailure(ServerError);
      return;
    }
    if Quot(exchange.status, 100) != 2 {
      match exchange.body.asError {
        case Failure(reason) =>
          k.OnFailure(ParseError(reason));
        case Success(env) =>
          if |env.errors| == 0 {
            k.OnFailure(ServerError);
          } else if env.errors[0].resource == "Application" {
            k.OnFailure(InvalidCredentials);
          } else if env.errors[0].resource == "RequestToken" {
            k.OnFailure(InvalidCode);
          } else {
            k.OnFailure(Structured(env));
          }
      }
      return;
    }
    match exchange.body.asAuthorization {
      case Failure(reason) =>
        k.OnFailure(ParseError(reason));
      case Success(auth) =>
        k.OnSuccess(auth);
    }
  }

  // -------------------------------------------------------------------
  // The handler's test, replayed: a fresh stub client and fresh
  // continuations per case, as the test swaps `httpClient` between cases
  // -------------------------------------------------------------------

  /** One request through the handler: exactly one continuation fires, and a
      token request is sent unless the callback was denied. */
  method RunCase(cfg: Config, rawQuery: string, reply: Exchange) returns (calls: seq<Outcome>, sent: seq<TokenRequest>)
    ensures calls == [Classify(FormValue(rawQuery, "error"), reply)]
    ensures sent == if FormValue(rawQuery, "error") == AccessDenied then [] else [TokenRequestFor(cfg, rawQuery)]
  {
    var client := new StubClient(reply);
    var k := new Continuations();
    HandleCallback(cfg, rawQuery, client, k);
    calls, sent := k.calls, client.requests;
  }

  /** The raw query of the denied callback in the test. */
  const DeniedQuery := "error=access_denied"

  lemma DeniedQueryReadsDenied()
    ensures FormValue(DeniedQuery, "error") == AccessDenied
  {
    ErrorKeyPlain();
    DeniedValuePlain();
    DeniedQueryLiteral();
    FormValueFirst("error", "access_denied", []);
  }

  lemma DeniedQueryLiteral()
    ensures "error" + "=" + "access_denied" == DeniedQuery
  {
  }

  lemma ErrorKeyPlain()
    ensures QueryPlain("error") && '=' !in "error"
  {
    var key := "error";
    assert forall i | 0 <= i < |key| :: key[i] in "eor";
  }

  lemma DeniedValuePlain()
    ensures QueryPlain("access_denied")
  {
    var value := "access_denied";
    assert forall i | 0 <= i < |value| :: value[i] in "acesdnid_";
  }

  /** The envelope with one entry naming `resource`, as the test's stubs send it. */
  function EnvelopeFor(resource: string): Error
  {
    Error("bad", [ErrorDetailed(resource, "", "")])
  }

  /** The stub body: its decoding as an envelope and as an authorization. */
  function Decoded(env: Error): Body
  {
    Body(Success(env), Success(EmptyAuthorization))
  }

  /** A 400 answer carrying `env`, and the sentinel each test envelope stands for. */
  lemma TestEnvelope(env: Error)
    ensures Classify([], Response(400, Decoded(env))) == Failed(ClassifyEnvelope(env))
    ensures ClassifyEnvelope(Error("bad", [])) == ServerError
    ensures ClassifyEnvelope(EnvelopeFor("Application")) == InvalidCredentials
    ensures ClassifyEnvelope(EnvelopeFor("RequestToken")) == InvalidCode
    ensures ClassifyEnvelope(EnvelopeFor("Othere")) == Structured(EnvelopeFor("Othere"))
  {
    ClassifyErrorStatus([], 400, Decoded(env));
  }

  /** The nine cases of the handler's test, in order. The transport stub's
      error and the JSON decoder's message for `bad json` are parameters:
      the test only requires them to be errors. */
  method ReplayHandlerTests(cfg: Config, transportReason: string, badJsonReason: string)
    returns (outcomes: seq<Outcome>, denialSent: seq<TokenRequest>)
    ensures denialSent == []
    ensures outcomes == [
      Failed(Denied),
      Failed(TransportError(transportReason)),
      Failed(ServerError),
      Failed(ServerError),
      Failed(InvalidCredentials),
      Failed(InvalidCode),
      Failed(Structured(EnvelopeFor("Othere"))),
      Failed(ParseError(badJsonReason)),
      Authorized(EmptyAuthorization)]
  {
    var sent: seq<TokenRequest>;
    DeniedQueryReadsDenied();
    FormValueEmpty("error");
    var c1, c2, c3, c4, c5, c6, c7, c8, c9;
    c1, denialSent := RunCase(cfg, DeniedQuery, Response(200, Decoded(Error([], []))));
    ClassifyDenied(Response(200, Decoded(Error([], []))));
    assert c1 == [Failed(Denied)];
    c2, sent := RunCase(cfg, [], TransportFailure(transportReason));
    ClassifyTransport([], transportReason);
    assert c2 == [Failed(TransportError(transportReason))];
    c3, sent := RunCase(cfg, [], Response(500, Decoded(Error([], []))));
    ClassifyServerStatus([], 500, Decoded(Error([], [])));
    assert c3 == [Failed(ServerError)];
    c4, sent := RunCase(cfg, [], Response(400, Decoded(Error("bad", []))));
    TestEnvelope(Error("bad", []));
    assert c4 == [Failed(ServerError)];
    c5, sent := RunCase(cfg, [], Response(400, Decoded(EnvelopeFor("Application"))));
    TestEnvelope(EnvelopeFor("Application"));
    assert c5 == [Failed(InvalidCredentials)];
    c6, sent := RunCase(cfg, [], Response(400, Decoded(EnvelopeFor("RequestToken"))));
    TestEnvelope(EnvelopeFor("RequestToken"));
    assert c6 == [Failed(InvalidCode)];
    c7, sent := RunCase(cfg, [], Response(400, Decoded(EnvelopeFor("Othere"))));
    TestEnvelope(EnvelopeFor("Othere"));
    assert c7 == [Failed(Structured(EnvelopeFor("Othere")))];
    c8, sent := RunCase(cfg, [], Response(200, Body(Failure(badJsonReason), Failure(badJsonReason))));
    ClassifyUndecodable([], 200, Body(Failure(badJsonReason), Failure(badJsonReason)));
    assert c8 == [Failed(ParseError(badJsonReason))];
    c9, sent := RunCase(cfg, [], Response(200, Decoded(Error([], []))));
    ClassifyAuthorized([], Response(200, Decoded(Error([], []))));
    assert c9 == [Authorized(EmptyAuthorization)];
    outcomes := [c1[0], c2[0], c3[0], c4[0], c5[0], c6[0], c7[0], c8[0], c9[0]];
  }
}
