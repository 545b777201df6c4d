/** The error taxonomy of the OAuth flow: the upstream `Error` envelope with
    its `ErrorDetailed` entries, whose text is its JSON encoding, and the
    four `OAuthError` sentinels, whose text is their message. */
module StravaErrors {
  import opened Wrappers
  import opened Text

  /** One entry of the upstream error list; `resource` names the object at fault. */
  datatype ErrorDetailed = ErrorDetailed(resource: string, field: string, code: string)

  /** The upstream error envelope `{"message": ..., "errors": [...]}`. */
  datatype Error = Error(message: string, errors: seq<ErrorDetailed>)

  /** A sentinel: a fixed error known by its identity, carrying a fixed message. */
  datatype OAuthError = OAuthError(message: string) {
    /** Go's `OAuthError.Error()`. */
    function Text(): string
    {
      message
    }
  }

  const AuthorizationDeniedErr := OAuthError("authorization denied by user")
  const InvalidCredentialsErr := OAuthError("invalid client_id or client_secret")
  const InvalidCodeErr := OAuthError("unrecognized code")
  const ServerErr := OAuthError("server error")

  /** A sentinel's text is its message, and no two sentinels share a text. */
  lemma SentinelTexts()
    ensures AuthorizationDeniedErr.Text() == AuthorizationDeniedErr.message
    ensures InvalidCredentialsErr.Text() == InvalidCredentialsErr.message
    ensures InvalidCodeErr.Text() == InvalidCodeErr.message
    ensures ServerErr.Text() == ServerErr.message
    ensures |{AuthorizationDeniedErr.Text(), InvalidCredentialsErr.Text(), InvalidCodeErr.Text(), ServerErr.Text()}| == 4
  {
  }

  // ---------------------------------------------------------------------
  // JSON encoding, as Go's encoding/json writes strings (HTML-safe mode)
  // ---------------------------------------------------------------------

  const Backspace: char := '\U{8}'
  const FormFeed: char := '\U{C}'
  const LineSeparator: char := '\U{2028}'
  const ParagraphSeparator: char := '\U{2029}'

  /** A character that `encoding/json` copies into a string literal as it is. */
  predicate Verbatim(c: char)
  {
    c as int >= 0x20 && c != '"' && c != '\\' && c != '<' && c != '>' && c != '&'
    && c != LineSeparator && c != ParagraphSeparator
  }

  function EscapeChar(c: char): (r: string)
    ensures |r| >= 1
    ensures Verbatim(c) <==> r == [c]
    ensures !Verbatim(c) ==> r[0] == '\\'
  {
    if c == '"' then "\\\""
    else if c == '\\' then "\\\\"
    else if c == '\n' then "\\n"
    else if c == '\r' then "\\r"
    else if c == '\t' then "\\t"
    else if c == Backspace then "\\b"
    else if c == FormFeed then "\\f"
    else if c as int < 0x20 || c == '<' || c == '>' || c == '&' then
      "\\u00" + [HexDigit(c as int / 16, false), HexDigit(c as int % 16, false)]
    else if c == LineSeparator then "\\u2028"
    else if c == ParagraphSeparator then "\\u2029"
    else [c]
  }

  function EscapeString(s: string): string
  {
    if s == [] then [] else EscapeChar(s[0]) + EscapeString(s[1..])
  }

  /** A JSON string literal. */
  function Quote(s: string): string
  {
    "\"" + EscapeString(s) + "\""
  }

  function DetailJson(d: ErrorDetailed): string
  {
    "{\"resource\":" + Quote(d.resource) + ",\"field\":" + Quote(d.field) + ",\"code\":" + Quote(d.code) + "}"
  }

  /** The entries of the list, comma-separated. */
  function DetailsJson(ds: seq<ErrorDetailed>): string
  {
    if |ds| == 0 then []
    else if |ds| == 1 then DetailJson(ds[0])
    else DetailJson(ds[0]) + "," + DetailsJson(ds[1..])
  }

  /** Go's `Error.Error()`: the JSON encoding of the envelope, keys in declaration order. */
  function ErrorText(e: Error): string
  {
    "{\"message\":" + Quote(e.message) + ",\"errors\":[" + DetailsJson(e.errors) + "]}"
  }

  // ---------------------------------------------------------------------
  // Reading the encoding back (only the shape ErrorText writes)
  // ---------------------------------------------------------------------

  /** The text after `lit`, when `s` starts with it. */
  function Expect(lit: string, s: string): (r: Option<string>)
    ensures r.Some? <==> |lit| <= |s| && s[..|lit|] == lit
    ensures r.Some? ==> s == lit + r.value
  {
    if |lit| <= |s| && s[..|lit|] == lit then
      assert s == lit + s[|lit|..];
      Some(s[|lit|..])
    else None
  }

  /** Decodes the escape whose backslash has just been read. */
  function ReadEscape(s: string): (r: Option<(char, string)>)
    ensures r.Some? ==> |r.value.1| < |s|
  {
    if s == [] then None
    else if s[0] == '"' then Some(('"', s[1..]))
    else if s[0] == '\\' then Some(('\\', s[1..]))
    else if s[0] == '/' then Some(('/', s[1..]))
    else if s[0] == 'b' then Some((Backspace, s[1..]))
    else if s[0] == 'f' then Some((FormFeed, s[1..]))
    else if s[0] == 'n' then Some(('\n', s[1..]))
    else if s[0] == 'r' then Some(('\r', s[1..]))
    else if s[0] == 't' then Some(('\t', s[1..]))
    else if s[0] == 'u' && |s| >= 5 && IsHexDigit(s[1]) && IsHexDigit(s[2]) && IsHexDigit(s[3]) && IsHexDigit(s[4]) then
      var v := ((HexValue(s[1]) * 16 + HexValue(s[2])) * 16 + HexValue(s[3])) * 16 + HexValue(s[4]);
      if v < 0xD800 || 0xE000 <= v then Some((v as char, s[5..])) else None
    else None
  }

  /** The characters of a string literal up to its closing quote, and what follows it. */
  function ReadChars(s: string): (r: Option<(string, string)>)
    ensures r.Some? ==> |r.value.1| < |s|
    decreases |s|
  {
    if s == [] then None
    else if s[0] == '"' then Some(([], s[1..]))
    else if s[0] == '\\' then
      var e :- ReadEscape(s[1..]);
      var t :- ReadChars(e.1);
      Some(([e.0] + t.0, t.1))
    else if (s[0] as int) < 0x20 then None
    else
      var t :- ReadChars(s[1..]);
      Some(([s[0]] + t.0, t.1))
  }

  function ReadString(s: string): (r: Option<(string, string)>)
    ensures r.Some? ==> |r.value.1| < |s|
  {
    if |s| > 0 && s[0] == '"' then ReadChars(s[1..]) else None
  }

  function ReadDetail(s: string): (r: Option<(ErrorDetailed, string)>)
    ensures r.Some? ==> |r.value.1| < |s|
  {
    var a :- Expect("{\"resource\":", s);
    var resource :- ReadString(a);
    var b :- Expect(",\"field\":", resource.1);
    var field :- ReadString(b);
    var c :- Expect(",\"code\":", field.1);
    var code :- ReadString(c);
    var d :- Expect("}", code.1);
    Some((ErrorDetailed(resource.0, field.0, code.0), d))
  }

  /** One or more entries, then the closing bracket of the list. */
  function ReadDetails(s: string): (r: Option<(seq<ErrorDetailed>, string)>)
    ensures r.Some? ==> |r.value.1| < |s|
    decreases |s|
  {
    var d :- ReadDetail(s);
    if |d.1| > 0 && d.1[0] == ']' then Some(([d.0], d.1[1..]))
    else if |d.1| > 0 && d.1[0] == ',' then
      var more :- ReadDetails(d.1[1..]);
      Some(([d.0] + more.0, more.1))
    else None
  }

  /** Reads an envelope in exactly the form `ErrorText` writes it. */
  function ParseErrorText(s: string): Option<Error>
  {
    var a :- Expect("{\"message\":", s);
    var message :- ReadString(a);
    var b :- Expect(",\"errors\":[", message.1);
    var details :- if |b| > 0 && b[0] == ']' then Some(([], b[1..])) else ReadDetails(b);
    var c :- Expect("}", details.1);
    if c == [] then Some(Error(message.0, details.0)) else None
  }

  // ---------------------------------------------------------------------
  // The encoding is faithful: reading it back gives the envelope
  // ---------------------------------------------------------------------

  lemma ExpectPrefix(lit: string, rest: string)
    ensures Expect(lit, lit + rest) == Some(rest)
  {
    assert (lit + rest)[..|lit|] == lit;
  }

  /** Reading one escaped character consumes exactly its escape. */
  lemma ReadCharsStep(c: char, t: string)
    ensures ReadChars(EscapeChar(c) + t) ==
      (match ReadChars(t)
       case None => None
       case Some(p) => Some(([c] + p.0, p.1)))
  {
    var s := EscapeChar(c) + t;
    if Verbatim(c) {
      assert s[1..] == t;
    } else {
      ReadEscapeChar(c, t);
      ReadCharsEscape(s, c, t);
    }
  }

  /** A backslash escape read as `c` continues with the rest of the literal. */
  lemma ReadCharsEscape(s: string, c: char, t: string)
    requires s != [] && s[0] == '\\' && ReadEscape(s[1..]) == Some((c, t))
    ensures ReadChars(s) ==
      (match ReadChars(t)
       case None => None
       case Some(p) => Some(([c] + p.0, p.1)))
  {
  }

  /** The escape written for `c` reads back as `c`. */
  lemma ReadEscapeChar(c: char, t: string)
    requires !Verbatim(c)
    ensures (EscapeChar(c) + t)[0] == '\\' && ReadEscape((EscapeChar(c) + t)[1..]) == Some((c, t))
  {
    var s := EscapeChar(c) + t;
    if (c as int < 0x20 && c != '\n' && c != '\r' && c != '\t' && c != Backspace && c != FormFeed)
      || c == '<' || c == '>' || c == '&' {
      ReadEscapeHex(c, t);
    } else if c == LineSeparator || c == ParagraphSeparator {
      assert s[1..][5..] == t;
    } else {
      assert s[1..][1..] == t;
    }
  }

  lemma ReadEscapeHex(c: char, t: string)
    requires c as int < 0x100
    ensures ReadEscape(['u', '0', '0', HexDigit(c as int / 16, false), HexDigit(c as int % 16, false)] + t) == Some((c, t))
  {
    var s := ['u', '0', '0', HexDigit(c as int / 16, false), HexDigit(c as int % 16, false)] + t;
    assert s[5..] == t;
  }

  lemma EscapeStringCons(s: string)
    requires s != []
    ensures EscapeString(s) == EscapeChar(s[0]) + EscapeString(s[1..])
  {
  }

  lemma Assoc(a: string, b: string, c: string, d: string)
    ensures a + b + c + d == a + (b + c + d)
  {
  }

  lemma {:induction false} ReadCharsEscaped(s: string, rest: string)
    ensures ReadChars(EscapeString(s) + "\"" + rest) == Some((s, rest))
    decreases |s|
  {
    if s == [] {
      assert EscapeString(s) + "\"" + rest == "\"" + rest;
    } else {
      var t := EscapeString(s[1..]) + "\"" + rest;
      EscapeStringCons(s);
      Assoc(EscapeChar(s[0]), EscapeString(s[1..]), "\"", rest);
      ReadCharsStep(s[0], t);
      ReadCharsEscaped(s[1..], rest);
      assert [s[0]] + s[1..] == s;
    }
  }

  lemma ReadStringQuote(s: string, rest: string)
    ensures ReadString(Quote(s) + rest) == Some((s, rest))
  {
    assert (Quote(s) + rest)[1..] == EscapeString(s) + "\"" + rest;
    ReadCharsEscaped(s, rest);
  }

  lemma ReadDetailJson(d: ErrorDetailed, rest: string)
    ensures ReadDetail(DetailJson(d) + rest) == Some((d, rest))
  {
    var s5 := "}" + rest;
    var s4 := Quote(d.code) + s5;
    var s3 := ",\"code\":" + s4;
    var s2 := Quote(d.field) + s3;
    var s1 := ",\"field\":" + s2;
    var s0 := Quote(d.resource) + s1;
    var x := DetailJson(d) + rest;
    assert Expect("{\"resource\":", x) == Some(s0) by {
      DetailJsonNested(d, rest);
      ExpectPrefix("{\"resource\":", s0);
    }
    assert ReadString(s0) == Some((d.resource, s1)) by { ReadStringQuote(d.resource, s1); }
    assert Expect(",\"field\":", s1) == Some(s2) by { ExpectPrefix(",\"field\":", s2); }
    assert ReadString(s2) == Some((d.field, s3)) by { ReadStringQuote(d.field, s3); }
    assert Expect(",\"code\":", s3) == Some(s4) by { ExpectPrefix(",\"code\":", s4); }
    assert ReadString(s4) == Some((d.code, s5)) by { ReadStringQuote(d.code, s5); }
    assert Expect("}", s5) == Some(rest) by { ExpectPrefix("}", rest); }
    ReadDetailSteps(x, d, s0, s1, s2, s3, s4, s5, rest);
  }

  lemma DetailJsonNested(d: ErrorDetailed, rest: string)
    ensures DetailJson(d) + rest
      == "{\"resource\":" + (Quote(d.resource) + (",\"field\":" + (Quote(d.field) + (",\"code\":" + (Quote(d.code) + ("}" + rest))))))
  {
    Nest("{\"resource\":", Quote(d.resource), ",\"field\":", Quote(d.field), ",\"code\":", Quote(d.code), "}", rest);
  }

  lemma Nest(a: string, b: string, c: string, d: string, e: string, f: string, g: string, rest: string)
    ensures a + b + c + d + e + f + g + rest == a + (b + (c + (d + (e + (f + (g + rest))))))
  {
  }

  /** `ReadDetail` succeeds when each of its seven steps does. */
  lemma ReadDetailSteps(x: string, d: ErrorDetailed, s0: string, s1: string, s2: string, s3: string, s4: string, s5: string, rest: string)
    requires Expect("{\"resource\":", x) == Some(s0)
    requires ReadString(s0) == Some((d.resource, s1))
    requires Expect(",\"field\":", s1) == Some(s2)
    requires ReadString(s2) == Some((d.field, s3))
    requires Expect(",\"code\":", s3) == Some(s4)
    requires ReadString(s4) == Some((d.code, s5))
    requires Expect("}", s5) == Some(rest)
    ensures ReadDetail(x) == Some((d, rest))
  {
  }

  lemma {:induction false} ReadDetailsJson(ds: seq<ErrorDetailed>, rest: string)
    requires |ds| >= 1
    ensures ReadDetails(DetailsJson(ds) + "]" + rest) == Some((ds, rest))
    decreases |ds|
  {
    if |ds| == 1 {
      ReadDetailsJsonOne(ds[0], rest);
      assert [ds[0]] == ds;
    } else {
      ReadDetailsJson(ds[1..], rest);
      ReadDetailsJsonCons(ds, rest);
    }
  }

  lemma ReadDetailsJsonOne(d: ErrorDetailed, rest: string)
    ensures ReadDetails(DetailsJson([d]) + "]" + rest) == Some(([d], rest))
  {
    var x := DetailsJson([d]) + "]" + rest;
    assert ReadDetail(x) == Some((d, "]" + rest)) by {
      assert x == DetailJson(d) + ("]" + rest);
      ReadDetailJson(d, "]" + rest);
    }
    ReadDetailsLast(x, d, rest);
  }

  lemma ReadDetailsJsonCons(ds: seq<ErrorDetailed>, rest: string)
    requires |ds| >= 2
    requires ReadDetails(DetailsJson(ds[1..]) + "]" + rest) == Some((ds[1..], rest))
    ensures ReadDetails(DetailsJson(ds) + "]" + rest) == Some((ds, rest))
  {
    var x := DetailsJson(ds) + "]" + rest;
    var tail := DetailsJson(ds[1..]) + "]" + rest;
    ReadDetailHead(ds, rest);
    ReadDetailsMore(x, ds[0], tail, ds[1..], rest);
    assert [ds[0]] + ds[1..] == ds;
  }

  lemma ReadDetailHead(ds: seq<ErrorDetailed>, rest: string)
    requires |ds| >= 2
    ensures ReadDetail(DetailsJson(ds) + "]" + rest) == Some((ds[0], "," + (DetailsJson(ds[1..]) + "]" + rest)))
  {
    var tail := DetailsJson(ds[1..]) + "]" + rest;
    assert DetailsJson(ds) == DetailJson(ds[0]) + "," + DetailsJson(ds[1..]);
    Regroup(DetailJson(ds[0]), ",", DetailsJson(ds[1..]), "]", rest);
    ReadDetailJson(ds[0], "," + tail);
  }

  lemma Regroup(a: string, b: string, c: string, d: string, e: string)
    ensures a + b + c + d + e == a + (b + (c + d + e))
  {
  }

  lemma ReadDetailsLast(x: string, d: ErrorDetailed, rest: string)
    requires ReadDetail(x) == Some((d, "]" + rest))
    ensures ReadDetails(x) == Some(([d], rest))
  {
    assert ("]" + rest)[1..] == rest;
  }

  lemma ReadDetailsMore(x: string, d: ErrorDetailed, tail: string, more: seq<ErrorDetailed>, rest: string)
    requires ReadDetail(x) == Some((d, "," + tail))
    requires ReadDetails(tail) == Some((more, rest))
    ensures ReadDetails(x) == Some(([d] + more, rest))
  {
    assert ("," + tail)[1..] == tail;
  }

  /** The text of an envelope reads back as that envelope. */
  /** The detail list, empty or not, reads back up to the closing brace. */
  lemma ReadDetailsList(ds: seq<ErrorDetailed>)
    ensures var s := DetailsJson(ds) + "]" + "}";
      (if |s| > 0 && s[0] == ']' then Some(([], s[1..])) else ReadDetails(s)) == Some((ds, "}"))
  {
    var s := DetailsJson(ds) + "]" + "}";
    if |ds| == 0 {
      assert s == "]}";
    } else {
      assert DetailsJson(ds)[0] == '{';
      ReadDetailsJson(ds, "}");
    }
  }

  lemma ParseErrorTextRoundTrip(e: Error)
    ensures ParseErrorText(ErrorText(e)) == Some(e)
  {
    var s2 := DetailsJson(e.errors) + "]" + "}";
    var s1 := ",\"errors\":[" + s2;
    var s0 := Quote(e.message) + s1;
    var x := ErrorText(e);
    assert Expect("{\"message\":", x) == Some(s0) by {
      ErrorTextNested(e);
      ExpectPrefix("{\"message\":", s0);
    }
    assert ReadString(s0) == Some((e.message, s1)) by { ReadStringQuote(e.message, s1); }
    assert Expect(",\"errors\":[", s1) == Some(s2) by { ExpectPrefix(",\"errors\":[", s2); }
    ReadDetailsList(e.errors);
    assert Expect("}", "}") == Some([]) by { ExpectPrefix("}", []); }
    ParseErrorTextSteps(x, e, s0, s1, s2);
  }

  lemma ErrorTextNested(e: Error)
    ensures ErrorText(e) == "{\"message\":" + (Quote(e.message) + (",\"errors\":[" + (DetailsJson(e.errors) + "]" + "}")))
  {
  }

  /** `ParseErrorText` succeeds when each of its steps does. */
  lemma ParseErrorTextSteps(x: string, e: Error, s0: string, s1: string, s2: string)
    requires Expect("{\"message\":", x) == Some(s0)
    requires ReadString(s0) == Some((e.message, s1))
    requires Expect(",\"errors\":[", s1) == Some(s2)
    requires (if |s2| > 0 && s2[0] == ']' then Some(([], s2[1..])) else ReadDetails(s2)) == Some((e.errors, "}"))
    requires Expect("}", "}") == Some([])
    ensures ParseErrorText(x) == Some(e)
  {
  }

  /** Distinct envelopes never share a text. */
  lemma ErrorTextInjective(e1: Error, e2: Error)
    requires ErrorText(e1) == ErrorText(e2)
    ensures e1 == e2
  {
    ParseErrorTextRoundTrip(e1);
    ParseErrorTextRoundTrip(e2);
  }

  /** No character of `s` needs escaping. */
  predicate AllVerbatim(s: string)
  {
    s == [] || (Verbatim(s[0]) && AllVerbatim(s[1..]))
  }

  /** Strings with nothing to escape are written as they are. */
  lemma {:induction false} QuoteVerbatim(s: string)
    requires AllVerbatim(s)
    ensures Quote(s) == "\"" + s + "\""
  {
    EscapeVerbatim(s);
  }

  lemma {:induction false} EscapeVerbatim(s: string)
    requires AllVerbatim(s)
    ensures EscapeString(s) == s
    decreases |s|
  {
    if s != [] {
      EscapeVerbatim(s[1..]);
      assert [s[0]] + s[1..] == s;
    }
  }

  /** For strings with nothing to escape, the text of a one-entry envelope is
      its fields, each between quotes, after the fixed keys in declaration order. */
  lemma ErrorTextVerbatim(e: Error)
    requires |e.errors| == 1
    requires AllVerbatim(e.message) && AllVerbatim(e.errors[0].resource)
    requires AllVerbatim(e.errors[0].field) && AllVerbatim(e.errors[0].code)
    ensures ErrorText(e) == "{\"message\":" + ("\"" + e.message + "\"") + ",\"errors\":["
      + ("{\"resource\":" + ("\"" + e.errors[0].resource + "\"") + ",\"field\":" + ("\"" + e.errors[0].field + "\"")
         + ",\"code\":" + ("\"" + e.errors[0].code + "\"") + "}") + "]}"
  {
    var d := e.errors[0];
    QuoteVerbatim(e.message);
    QuoteVerbatim(d.resource);
    QuoteVerbatim(d.field);
    QuoteVerbatim(d.code);
    assert DetailsJson(e.errors) == DetailJson(d);
  }

  /** The envelope of the error-string test. */
  const ExampleError := Error("bad bad bad", [ErrorDetailed("auth", "code", "missing")])

  /** The text Go prints for it: the test's literal (oauth_test.go:193), cut
      where the encoder writes each piece. */
  lemma ErrorTextExample()
    ensures ErrorText(ExampleError) == "{\"message\":" + ("\"" + "bad bad bad" + "\"") + ",\"errors\":["
      + ("{\"resource\":" + ("\"" + "auth" + "\"") + ",\"field\":" + ("\"" + "code" + "\"")
         + ",\"code\":" + ("\"" + "missing" + "\"") + "}") + "]}"
  {
    ExampleVerbatim();
    ErrorTextVerbatim(ExampleError);
  }

  lemma ExampleVerbatim()
    ensures AllVerbatim(ExampleError.message) && AllVerbatim(ExampleError.errors[0].resource)
    ensures AllVerbatim(ExampleError.errors[0].field) && AllVerbatim(ExampleError.errors[0].code)
  {
    VerbatimMessage();
    VerbatimDetail();
  }

  lemma VerbatimMessage()
    ensures AllVerbatim("bad bad bad")
  {
  }

  lemma VerbatimDetail()
    ensures AllVerbatim("auth") && AllVerbatim("code") && AllVerbatim("missing")
  {
  }
}
