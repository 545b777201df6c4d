# OAuth flow of the Strava Go client, modelled in Dafny

This project models the OAuth 2.0 authorization-code flow (section 4.1 of RFC 6749) of the
Go Strava client `go.strava`, as its test file `oauth_test.go` pins it down. It has three parts:

- **The callback handler** (`OAuthCallbackHandler`). It reads the `error` parameter of the
  inbound callback and, unless the user refused, posts the code to the token endpoint. It then
  calls exactly one of two continuations. The success continuation gets the decoded
  authorization response. The failure continuation gets one of:
  - the four sentinels (denied, server error, invalid credentials, invalid code);
  - the upstream `Error` envelope;
  - the transport or decoding error, passed through.
- **The authorization URL** (`OAuthAuthorizationURL`). Its parameters come in a fixed order
  (section 4.1.1 of RFC 6749), followed by an optional `state` and an optional
  `approval_prompt=force`.
- **The callback path** (`OAuthCallbackPath`) and **the error texts**.
  - The path is the path component (section 3.3 of RFC 3986) of the configured callback URL.
    It is an error when that URL is unset, badly percent-encoded (section 2.1 of RFC 3986),
    or has an authority Go's `url.Parse` refuses: a host with a character or an escape a host
    may not hold, a port that is not digits, or user information with a forbidden character.
  - A sentinel's text is its message.
  - An `Error`'s text is its JSON encoding (RFC 8259), written the way `encoding/json` writes it.

The package-level settings of the Go code (`OAuthCallbackURL`, `basePath`, and the client id
and secret) are passed in as a `Config` value. The HTTP client is passed in
as a stub object that answers with a fixed `Exchange`.

Files, one module each:

| file | module | contents |
|---|---|---|
| `wrappers.dfy` | `Wrappers` | `Option` and `Result` |
| `text.dfy` | `Text` | `strings.Cut`, `strings.Split` and join; percent-decoding as in `net/url`; decimal formatting and parsing |
| `errors.dfy` | `StravaErrors` | `Error`, `ErrorDetailed`, the sentinels; the JSON text of an `Error` and a reader that inverts it |
| `urls.dfy` | `CallbackUrl` | `OAuthCallbackPath` over a simplified `url.Parse` with Go's host and user-information rules; `Request.FormValue` over `url.ParseQuery` |
| `authorize.dfy` | `Authorize` | `OAuthAuthorizationURL`, and the same URL read back as a parameter list |
| `callback.dfy` | `Callback` | the outcome classifier; the handler as a method over a stub client and a continuation recorder; the handler's test replayed |

The handler is written imperatively because the Go code and its test work by effects:
- `HandleCallback` is a method over two objects. `StubClient` records the token requests it
  was sent. `Continuations` records each continuation call.
- Its contract ties both records to the pure functions `TokenRequestFor` and `Classify`.
- The lemmas about `Classify` state what the test asserts, for all inputs.
- `ReplayHandlerTests` runs the test's nine cases in order, each against a fresh stub, in the
  way the test reassigns `httpClient` between cases.

## Model

| member | source | states |
|---|---|---|
| Callback.Classify | oauth_test.go:9-135 | the outcome of a callback: what the continuations receive comes from the exchange (the authorization decoded from it, its transport error, or its decoder's error) |
| Callback.ClassifyEnvelope | oauth_test.go:56-109 | an envelope gives the server-error sentinel exactly when it lists no entry, and otherwise a sentinel or the envelope itself |
| Callback.ClassifyDenied | oauth_test.go:16-25 | a callback whose `error` parameter is `access_denied` fails with the denied sentinel, whatever the exchange would return |
| Callback.DeniedQueryReadsDenied | oauth_test.go:24 | the query `error=access_denied` of the denied request reads back `access_denied` for `error` |
| Callback.ClassifyTransport | oauth_test.go:28-39 | when the token request gets no HTTP answer, the failure continuation receives that transport error |
| Callback.StatusClass | oauth_test.go:50-64 | Go's truncating `status/100` equals 5 exactly for 500..599 and 2 exactly for 200..299, negative statuses included |
| Callback.ClassifyServerStatus | oauth_test.go:42-53 | every 5xx answer is the server-error sentinel, whatever its body |
| Callback.ClassifyErrorStatus | oauth_test.go:56-109 | a status outside 2xx and 5xx reads the body as an error envelope; if that fails to decode, the decoder's error is passed on; otherwise the envelope decides |
| Callback.EnvelopeCases | oauth_test.go:56-109 | an envelope with no entries is the server-error sentinel; otherwise `Application` gives invalid credentials, `RequestToken` gives invalid code, anything else gives the envelope itself |
| Callback.EnvelopeFirstResourceDecides | oauth_test.go:70-109 | only the first entry's `resource` matters: envelopes agreeing on it get the same sentinel, or are each returned whole |
| Callback.TestEnvelope | oauth_test.go:56-109 | the four envelopes of the test at status 400 give server error, invalid credentials, invalid code and the structured `Error` |
| Callback.SentinelsDistinct | oauth_test.go:101-103 | distinct sentinel failures are distinct sentinels; a structured `Error` is no sentinel, and its text (a JSON object) differs from every sentinel's text |
| Callback.ClassifyAuthorized | oauth_test.go:112-134 | the success continuation fires if and only if the callback is not denied, the answer is 2xx and the body decodes as an authorization response; it receives that response |
| Callback.ClassifyUndecodable | oauth_test.go:112-123 | a 2xx body that does not decode passes the decoder's error to the failure continuation |
| Callback.TokenRequestFor | oauth_test.go:36-39 | the token request carries the client id (which reads back as the configured number), the secret, the callback's `code` parameter and grant type `authorization_code` |
| Callback.StubClient.PostForm | oauth_test.go:36-39 | the stub client records each request it is sent and answers with its fixed exchange |
| Callback.Continuations.OnSuccess | oauth_test.go:126-129 | a call of the success continuation is appended to the record |
| Callback.Continuations.OnFailure | oauth_test.go:16-22 | a call of the failure continuation is appended to the record |
| Callback.HandleCallback | oauth_test.go:9-135 | a denied callback sends no token request and any other sends exactly `TokenRequestFor(cfg, query)`; exactly one continuation fires, with `Classify` of the callback's `error` parameter and the client's answer |
| Callback.RunCase | oauth_test.go:24-25 | one request through the handler against a fresh stub: one continuation call, and one token request unless denied |
| Callback.ReplayHandlerTests | oauth_test.go:9-135 | the nine cases of the test, in order, give: denied, transport error, server error twice, invalid credentials, invalid code, the structured `Error`, the decoder's error, then success with the decoded `{}`; the denied case sends no request |
| CallbackUrl.CallbackPathUnset | oauth_test.go:138-141 | an unset callback URL is an error |
| CallbackUrl.CallbackPathBadEscapeExample | oauth_test.go:143-147 | `http://www.strava.c%om/` is rejected for its invalid escape |
| CallbackUrl.CallbackPathExample | oauth_test.go:149-153 | `http://abc.com/strava/oauth` resolves to `/strava/oauth` |
| CallbackUrl.CallbackPathAsciiEscapeExample | oauth_test.go:143-147 | `http://ab%41.com/x` is rejected too: a host may escape only bytes from 0x80 up, and `%25` |
| CallbackUrl.CallbackPath | oauth_test.go:137-153 | Go's `OAuthCallbackPath`: an unset URL is an error, otherwise the path `url.Parse` finds (its properties are the rows above and below) |
| CallbackUrl.ParsePath | oauth_test.go:143-153 | `url.Parse`, keeping the path: a control character before the fragment is rejected, and an accepted URL has a well-escaped fragment |
| CallbackUrl.ParseReference | oauth_test.go:143-153 | control characters, then the scheme, then the part before the query; read for `scheme://r` by `ParseHierarchy` |
| CallbackUrl.ParseHierarchicalPart | oauth_test.go:143-153 | opaque URLs have no path, a colon in a relative first segment is an error, `//` starts an authority; read for `scheme://r` by `ParseHierarchy` |
| CallbackUrl.ScanScheme | oauth_test.go:143-153 | Go's `getScheme`: a found scheme and the rest joined by `:` give the input; no scheme leaves the input whole; a leading `:` is the only failure |
| CallbackUrl.ParseAuthorityAndPath | oauth_test.go:143-153 | the authority before the first `/` is checked, then the path decoded; accepted exactly as `AuthorityAndPathAccepted` states |
| CallbackUrl.AuthorityError | oauth_test.go:143-153 | Go's `parseAuthority`: the host after the last `@`, then the user information's characters and escapes; accepts exactly the valid authorities (`AuthorityErrorValid`) |
| CallbackUrl.HostError | oauth_test.go:143-153 | Go's `parseHost`: the port after `]` or after the last `:`, then host-mode unescaping; accepts exactly the valid hosts (`HostErrorValid`) |
| CallbackUrl.HostUnescapeError | oauth_test.go:143-147 | Go's `unescape` in host mode, scanning left to right; accepts exactly the text `HostUnescapeErrorText` describes |
| CallbackUrl.HostUnescapeErrorText | oauth_test.go:143-147 | the scan accepts a host text if and only if every `%` starts an escape of a byte from 0x80 up (or `%25`) and every other ASCII character is one a host may hold |
| CallbackUrl.HostErrorValid | oauth_test.go:143-147 | the host check accepts a host if and only if its bracket, its port and its text are valid |
| CallbackUrl.AuthorityErrorValid | oauth_test.go:143-147 | the authority check accepts an authority if and only if its host is valid and the user information before the last `@` holds only allowed characters and is well escaped |
| CallbackUrl.ValidAuthorityEscaped | oauth_test.go:143-147 | an accepted authority is well escaped: the host rules are stricter than the bare escape rule |
| CallbackUrl.CallbackPathAccepted | oauth_test.go:143-153 | a `scheme://authority/path` URL without query or fragment resolves if and only if Go accepts its authority and the path's `%` escapes are well formed |
| CallbackUrl.CallbackPathWellEscaped | oauth_test.go:143-153 | a URL that resolves is well escaped throughout |
| CallbackUrl.AuthorityAndPathAccepted | oauth_test.go:143-153 | after `//`, authority and path are accepted if and only if the authority is valid and the path is well escaped |
| CallbackUrl.CallbackPathRoundTrip | oauth_test.go:149-153 | for a host Go accepts, with no `/`, any path that is empty or starts with `/` (control characters included), escaped where it must be, reads back as exactly that path |
| CallbackUrl.AuthorityAndPathEscaped | oauth_test.go:149-153 | an accepted host followed by an escaped path decodes to the path |
| CallbackUrl.AuthorityAndPathPlain | oauth_test.go:149-153 | an accepted host followed by a path that holds no `%` gives that path unchanged |
| CallbackUrl.AuthorityRejected | oauth_test.go:143-147 | a rejected authority is rejected with the same error, whatever path follows it |
| CallbackUrl.ParseHierarchy | oauth_test.go:143-153 | for `scheme://r`, with no query, fragment or control character in `r`, the resolver reads `r` as authority and path |
| CallbackUrl.WellEscapedAround | oauth_test.go:143-147 | a `/` splits escape validity: the whole text is well escaped if and only if both sides are |
| CallbackUrl.ScanSchemeFinds | oauth_test.go:143-153 | the scheme scanner stops at the `:` after a well-formed scheme |
| CallbackUrl.QueryPairs | oauth_test.go:24 | `url.ParseQuery`: at most one pair per `&`-separated piece; empty pieces, pieces with `;` and pieces that do not unescape are dropped |
| CallbackUrl.Lookup | oauth_test.go:24 | the first value under a key; a non-empty result is a pair of the list |
| CallbackUrl.FormValue | oauth_test.go:24 | `Request.FormValue`: a non-empty value read is the value of a `key=value` pair of the query |
| CallbackUrl.FormValueFirst | oauth_test.go:24 | a plain `key=value` written first in the query is what `FormValue` returns for that key |
| CallbackUrl.FormValueEmpty | oauth_test.go:37 | an empty query carries no parameter: every key reads as empty |
| CallbackUrl.QueryPlainUnescapes | oauth_test.go:24 | text with no `%`, `+` or separator unescapes to itself in a query |
| Text.Unescape | oauth_test.go:143-147 | unescaping succeeds if and only if every `%` is followed by two hex digits; text without `%` (and, in a query, without `+`) is unchanged |
| Text.UnescapeEscapePath | oauth_test.go:149-153 | unescaping an escaped path gives the path back |
| Text.EscapePath | oauth_test.go:149-153 | an escaped path holds no `?`, `#` or control character, and every `%` in it starts a two-hex-digit escape (it is well escaped) |
| Text.WellEscapedCons | oauth_test.go:149-153 | one plain character or one complete escape, then well-escaped text, is well escaped |
| Text.CutAt | oauth_test.go:143-153 | `strings.Cut`: found if and only if the separator occurs; the part before holds none; the parts joined give the input |
| Text.Split | oauth_test.go:24 | `strings.Split` gives at least one part, none holding the separator, and joining the parts gives the input |
| Text.SplitJoin | oauth_test.go:24 | splitting parts joined by a separator they do not hold gives the parts back |
| Text.HexDigit | oauth_test.go:149-153 | the digit written for each value below 16 is a hex digit of that value, upper case for URLs and lower case for JSON |
| Text.CutAtLast | oauth_test.go:143-153 | `strings.LastIndex` as a cut: found if and only if the separator occurs; the part after holds none |
| Text.CutAtLastJoin | oauth_test.go:143-153 | a found last separator sits between the two parts |
| Text.Digits | oauth_test.go:161 | the decimal digits of a number: at least one, all decimal, no leading zero |
| Text.ParseFormatInt | oauth_test.go:161 | the `client_id` written as decimal reads back as the same number, negative numbers included |
| Text.FormatIntAlphabet | oauth_test.go:161 | a formatted number holds only digits and a minus sign |
| Authorize.ScopeToken | oauth_test.go:160-173 | each permission's scope token (`public`, `view_private`) is non-empty and needs no escaping in a query |
| Authorize.AuthorizationURLParams | oauth_test.go:156-178 | the URL is the base path, `/oauth/authorize?`, then `client_id`, `response_type=code`, `redirect_uri`, `scope`, `state` when non-empty and `approval_prompt=force` when forced, in that order, as `key=value` joined with `&`, nothing escaped |
| Authorize.AuthorizationURLReadBack | oauth_test.go:156-178 | when the callback URL and the state hold none of `& ; % + #` and the base path holds no `?` or `#` (the URL inserts them unescaped): reading the URL's query back gives exactly that parameter list; `client_id`, `response_type` (`code`), `redirect_uri`, `scope`, `state` (empty when not sent) and `approval_prompt` (empty unless forced) read back as written |
| Authorize.EncodeQueryRoundTrip | oauth_test.go:156-178 | a non-empty list of plain parameters, encoded as a query, reads back as the same list |
| Authorize.QueryPairsRender | oauth_test.go:156-178 | plain `key=value` pieces read back as the same pairs, in order |
| Authorize.LookupAuthorizationParams | oauth_test.go:156-178 | each parameter, `response_type=code` included, is found under its own key, and an absent `state` or `approval_prompt` reads as empty |
| Authorize.AuthorizationURL | oauth_test.go:156-178 | Go's `OAuthAuthorizationURL`: the base path, `/oauth/authorize?` and the parameters, unescaped; its shape is `AuthorizationURLParams` and its read-back `AuthorizationURLReadBack` |
| Authorize.AuthorizationParams | oauth_test.go:156-178 | the parameter list of the URL, in order, with `state` only when non-empty and `approval_prompt=force` only when forced; read back by `LookupAuthorizationParams` |
| Authorize.EncodeQueryAppend | oauth_test.go:165-168 | appending a parameter appends `&key=value` to the query |
| Authorize.AuthorizationURLExampleState | oauth_test.go:160-163 | with state `state`, public scope and no forced prompt, the URL is the test's string |
| Authorize.AuthorizationURLExampleForce | oauth_test.go:165-168 | with the prompt forced, `&approval_prompt=force` comes last |
| Authorize.AuthorizationURLExamplePrivate | oauth_test.go:170-173 | the private permission writes `scope=view_private` |
| Authorize.AuthorizationURLExampleNoState | oauth_test.go:175-178 | with an empty state, no `state` parameter is written |
| StravaErrors.OAuthError.Text | oauth_test.go:181-186 | a sentinel's text is its message (stated for the four sentinels by `SentinelTexts`) |
| StravaErrors.ErrorText | oauth_test.go:188-196 | the JSON text of an envelope; read back by `ParseErrorTextRoundTrip` |
| StravaErrors.ParseErrorText | oauth_test.go:188-196 | reads the JSON text `ErrorText` writes; the inverse stated by `ParseErrorTextRoundTrip` |
| StravaErrors.SentinelTexts | oauth_test.go:181-186 | each sentinel's text is its message, and the four texts are distinct |
| StravaErrors.ErrorTextExample | oauth_test.go:188-196 | the text of the test's envelope is the test's JSON string |
| StravaErrors.ErrorTextVerbatim | oauth_test.go:188-196 | for fields needing no escape, a one-entry envelope is written as its fields in quotes after the keys `message`, `errors`, `resource`, `field`, `code`, in that order |
| StravaErrors.ParseErrorTextRoundTrip | oauth_test.go:188-196 | the JSON text of every envelope, escapes included, reads back as that envelope |
| StravaErrors.ErrorTextInjective | oauth_test.go:188-196 | distinct envelopes never share a text |
| StravaErrors.ReadCharsEscaped | oauth_test.go:188-196 | the escaped characters of any string, then a closing quote, read back as that string |
| StravaErrors.EscapeChar | oauth_test.go:188-196 | a character is written as itself exactly when `encoding/json` copies it; otherwise its escape starts with a backslash |
| StravaErrors.QuoteVerbatim | oauth_test.go:188-196 | a string with nothing to escape is quoted as itself |

## Left out

- `oauth.go` is not part of this model. The behaviour comes from the assertions in
  `oauth_test.go`. Where the test does not fix a detail, the model makes these choices:
  - The sentinel messages are assumed. Only their distinctness and their first characters are
    used, and no proof depends on their exact wording.
  - A non-2xx, non-5xx body that does not decode as an error envelope passes the decoder's error
    to the failure continuation.
  - The token request posts client id, secret, code and grant type `authorization_code`
    (section 4.1.3 of RFC 6749) to `basePath + "/oauth/token"`.
- Real HTTP is left out: `http.Client`, `httptest.NewRecorder`, `http.ResponseWriter`, and the
  test's `storeRequestTransport` and `NewStubResponseClient`. The exchange is an `Exchange`
  value answered by `StubClient`. The response writer and the request object passed to the
  continuations are not modelled.
- Swapping the package-level `httpClient` and `OAuthCallbackURL` between test cases is left
  out. `ReplayHandlerTests` builds a fresh stub per case instead, and `Config` carries the
  settings.
- General JSON decoding of response bodies is left out. A `Body` is given by what decoding makes
  of it as an error envelope and as an authorization response. Decoding `{}` gives the all-empty
  values, and the decoder's error text is a parameter.
- The athlete profile in the authorization response is opaque (`AthleteProfile`).
- Callback.ReplayHandlerTests: the transport error and the decoder's message for `bad json` are
  parameters, because the test only requires them to be errors.
- CallbackUrl.CallbackPath: `url.Parse` is simplified. The model keeps:
  - the scheme scan;
  - cutting at `#` and `?`;
  - opaque URLs;
  - the colon-in-first-segment rule;
  - control characters;
  - the authority rules of `parseAuthority` and `parseHost`: the characters and escapes of the
    user information, the port, the closing `]`, and host-mode unescaping (only escapes of bytes
    from 0x80 up and `%25`, and only the ASCII characters a host may hold);
  - escape validation of path and fragment.
- CallbackUrl.HostError: the text between `[` and `]` is not checked to be an IPv6 address, and
  a zone identifier (after `%25` inside the brackets) is read with the host rules rather than
  Go's zone rules.
- CallbackUrl.AuthorityError: the user name and password are not decoded, only checked; the
  resolver returns the path alone.
- Text.Unescape: each `%XX` decodes to one character with that code. Multi-byte UTF-8
  sequences are not reassembled into one character, because strings here are sequences of
  characters, not bytes.
- StravaErrors.Error: the entries are values, so an envelope cannot hold a nil entry. In Go
  the field is a slice of pointers (`[]*ErrorDetailed`, oauth_test.go:191): a body such as
  `{"message":"m","errors":[null]}` decodes to a nil entry, which `Error()` writes as `null`
  and on which the classifier's read of the first entry's `resource` dereferences nil.
- StravaErrors.DetailsJson: an envelope whose `errors` slice is nil is written `[]`. Go writes
  `null` for a nil slice; the model has no nil slice to distinguish.
- StravaErrors.EscapeChar: follows `encoding/json` in HTML-safe mode for current Go versions:
  - the short escapes `\b \f \n \r \t \" \\`;
  - `\u00XX` for other control characters and for `<`, `>`, `&`;
  - `\u2028` and `\u2029` for the line and paragraph separators.
  Invalid UTF-8 does not arise over characters.
- CallbackUrl.QueryPairs: follows `url.ParseQuery` of Go 1.17 and later, which drops pieces
  holding `;`.
- Authorize.AuthorizationURL: returns the URL only, as the test uses it (oauth_test.go:160).
  No error result is modelled.
- `segment_efforts.go` is not part of this model. It builds a path, makes a request and decodes
  JSON; none of that concerns the OAuth flow.
