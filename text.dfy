/** String helpers shared by the URL and JSON parts of the model: searching,
    splitting on a separator, hexadecimal digits, percent-decoding (section 2.1
    of RFC 3986) and Go's `%d` rendering of an integer. */
module Text {
  import opened Wrappers

  /** Index of the first `c` in `s`, or `|s|` when there is none. */
  function Find(s: string, c: char): (i: nat)
    ensures i <= |s|
    ensures i < |s| ==> s[i] == c
    ensures c !in s[..i]
    decreases |s|
  {
    if s == [] then 0
    else if s[0] == c then 0
    else 1 + Find(s[1..], c)
  }

  /** Go's `strings.Cut`: the text before and after the first separator. */
  datatype Cut = Cut(before: string, after: string, found: bool)

  function CutAt(s: string, sep: char): (r: Cut)
    ensures r.found <==> sep in s
    ensures sep !in r.before
    ensures s == if r.found then r.before + [sep] + r.after else r.before
    ensures !r.found ==> r.after == []
  {
    var i := Find(s, sep);
    if i < |s| then
      assert s == s[..i] + [sep] + s[i + 1..];
      Cut(s[..i], s[i + 1..], true)
    else
      assert s[..i] == s;
      Cut(s, [], false)
  }

  lemma {:induction false} CutAtJoin(a: string, sep: char, b: string)
    requires sep !in a
    ensures CutAt(a + [sep] + b, sep) == Cut(a, b, true)
  {
    var s := a + [sep] + b;
    assert s[|a|] == sep;
    assert s[..|a|] == a;
    assert s[|a| + 1..] == b;
  }

  lemma {:induction false} CutAtAbsent(s: string, sep: char)
    requires sep !in s
    ensures CutAt(s, sep) == Cut(s, [], false)
  {
  }

  /** The text before and after the LAST separator (Go's `strings.LastIndex`). */
  function CutAtLast(s: string, sep: char): (r: Cut)
    ensures r.found <==> sep in s
    ensures sep !in r.after
    ensures !r.found ==> r.before == s && r.after == []
    decreases |s|
  {
    if s == [] then Cut([], [], false)
    else
      var rest := CutAtLast(s[1..], sep);
      if rest.found then Cut([s[0]] + rest.before, rest.after, true)
      else if s[0] == sep then Cut([], s[1..], true)
      else
        assert s == [s[0]] + s[1..];
        Cut(s, [], false)
  }

  /** A last separator that is found sits between the two parts. */
  lemma {:induction false} CutAtLastJoin(s: string, sep: char)
    requires sep in s
    ensures var r := CutAtLast(s, sep); s == r.before + [sep] + r.after
    decreases |s|
  {
    var rest := CutAtLast(s[1..], sep);
    assert s == [s[0]] + s[1..];
    if rest.found {
      CutAtLastJoin(s[1..], sep);
    }
  }

  /** The parts are joined back with the separator between them. */
  function Join(parts: seq<string>, sep: char): string
  {
    if |parts| == 0 then []
    else if |parts| == 1 then parts[0]
    else parts[0] + [sep] + Join(parts[1..], sep)
  }

  /** Go's `strings.Split` with a one-character separator: every separator
      splits, so there is always at least one part and no part holds one. */
  function Split(s: string, sep: char): (parts: seq<string>)
    ensures |parts| >= 1
    ensures forall p <- parts :: sep !in p
    ensures Join(parts, sep) == s
    decreases |s|
  {
    var c := CutAt(s, sep);
    if c.found then [c.before] + Split(c.after, sep) else [s]
  }

  /** Splitting is the inverse of joining parts that hold no separator. */
  lemma {:induction false} SplitJoin(parts: seq<string>, sep: char)
    requires |parts| >= 1
    requires forall p <- parts :: sep !in p
    ensures Split(Join(parts, sep), sep) == parts
    decreases |parts|
  {
    if |parts| == 1 {
      assert parts[0] in parts;
      CutAtAbsent(parts[0], sep);
    } else {
      assert forall p <- parts[1..] :: p in parts;
      SplitJoin(parts[1..], sep);
      SplitJoinStep(parts, sep);
    }
  }

  /** One step of SplitJoin: the first part comes off, the rest splits as before. */
  lemma SplitJoinStep(parts: seq<string>, sep: char)
    requires |parts| >= 2
    requires sep !in parts[0]
    requires Split(Join(parts[1..], sep), sep) == parts[1..]
    ensures Split(Join(parts, sep), sep) == parts
  {
    SplitCons(parts[0], sep, Join(parts[1..], sep));
    assert parts == [parts[0]] + parts[1..];
  }

  /** A leading part without the separator is split off first. */
  lemma SplitCons(a: string, sep: char, rest: string)
    requires sep !in a
    ensures Split(a + [sep] + rest, sep) == [a] + Split(rest, sep)
  {
    CutAtJoin(a, sep, rest);
  }

  lemma SplitSingle(a: string, sep: char)
    requires sep !in a
    ensures Split(a, sep) == [a]
  {
    CutAtAbsent(a, sep);
  }

  predicate IsHexDigit(c: char)
  {
    '0' <= c <= '9' || 'a' <= c <= 'f' || 'A' <= c <= 'F'
  }

  function HexValue(c: char): (v: nat)
    requires IsHexDigit(c)
    ensures v < 16
  {
    if '0' <= c <= '9' then c as int - '0' as int
    else if 'a' <= c <= 'f' then c as int - 'a' as int + 10
    else c as int - 'A' as int + 10
  }

  /** The hexadecimal digit for `v`: upper case as Go's URL escaper writes
      it, lower case as its JSON encoder does. */
  function HexDigit(v: nat, upper: bool): (c: char)
    requires v < 16
    ensures IsHexDigit(c) && HexValue(c) == v
    ensures !('a' <= c <= 'f') || !upper
    ensures !('A' <= c <= 'F') || upper
  {
    if v < 10 then ('0' as int + v) as char
    else ((if upper then 'A' else 'a') as int + v - 10) as char
  }

  /** Every `%` is followed by two hexadecimal digits (RFC 3986 section 2.1). */
  predicate WellEscaped(s: string)
  {
    forall i :: 0 <= i < |s| && s[i] == '%' ==> i + 2 < |s| && IsHexDigit(s[i + 1]) && IsHexDigit(s[i + 2])
  }

  /** Go's `url` unescaping: `%XX` becomes the character with that code and a
      stray `%` is an error; in query mode a `+` stands for a space. */
  function Unescape(s: string, plusIsSpace: bool): (r: Option<string>)
    ensures r.Some? <==> WellEscaped(s)
    ensures r.Some? && '%' !in s && (!plusIsSpace || '+' !in s) ==> r.value == s
    decreases |s|
  {
    if s == [] then Some([])
    else if s[0] == '%' then
      if |s| >= 3 && IsHexDigit(s[1]) && IsHexDigit(s[2]) then
        var tail := Unescape(s[3..], plusIsSpace);
        assert WellEscaped(s) <==> WellEscaped(s[3..]) by {
          if WellEscaped(s[3..]) {
            forall i | 0 <= i < |s| && s[i] == '%'
              ensures i + 2 < |s| && IsHexDigit(s[i + 1]) && IsHexDigit(s[i + 2])
            {
              if i >= 3 { assert s[3..][i - 3] == s[i]; }
            }
          }
          if WellEscaped(s) {
            forall j | 0 <= j < |s[3..]| && s[3..][j] == '%'
              ensures j + 2 < |s[3..]| && IsHexDigit(s[3..][j + 1]) && IsHexDigit(s[3..][j + 2])
            {
              assert s[j + 3] == '%';
            }
          }
        }
        match tail
        case None => None
        case Some(t) => Some([(HexValue(s[1]) * 16 + HexValue(s[2])) as char] + t)
      else
        assert !WellEscaped(s) by { assert s[0] == '%'; }
        None
    else
      var tail := Unescape(s[1..], plusIsSpace);
      assert WellEscaped(s) <==> WellEscaped(s[1..]) by {
        if WellEscaped(s[1..]) {
          forall i | 0 <= i < |s| && s[i] == '%'
            ensures i + 2 < |s| && IsHexDigit(s[i + 1]) && IsHexDigit(s[i + 2])
          {
            assert s[1..][i - 1] == s[i];
          }
        }
        if WellEscaped(s) {
          forall j | 0 <= j < |s[1..]| && s[1..][j] == '%'
            ensures j + 2 < |s[1..]| && IsHexDigit(s[1..][j + 1]) && IsHexDigit(s[1..][j + 2])
          {
            assert s[j + 1] == '%';
          }
        }
      }
      match tail
      case None => None
      case Some(t) =>
        assert s == [s[0]] + s[1..];
        Some([if plusIsSpace && s[0] == '+' then ' ' else s[0]] + t)
  }

  /** An ASCII control character, which `url.Parse` refuses unescaped. */
  predicate IsControl(c: char)
  {
    c as int < 0x20 || c as int == 0x7f
  }

  /** Characters a path must escape so that it reads back unchanged after a
      host: the escape character itself, the query and fragment markers, and
      the control characters. */
  predicate PathReserved(c: char)
  {
    c == '%' || c == '?' || c == '#' || IsControl(c)
  }

  /** Go's path escaping, restricted to the reserved characters above: each
      becomes `%` and two upper-case hexadecimal digits. */
  function EscapePath(p: string): (r: string)
    ensures forall c <- r :: !PathReserved(c) || c == '%'
    ensures '?' !in r && '#' !in r
    ensures WellEscaped(r)
  {
    if p == [] then []
    else
      var head := if PathReserved(p[0])
        then ['%', HexDigit(p[0] as int / 16, true), HexDigit(p[0] as int % 16, true)]
        else [p[0]];
      WellEscapedCons(head, EscapePath(p[1..]));
      head + EscapePath(p[1..])
  }

  /** One plain character or one complete escape, then well-escaped text. */
  lemma WellEscapedCons(head: string, rest: string)
    requires (|head| == 1 && head[0] != '%') || (|head| == 3 && head[0] == '%' && IsHexDigit(head[1]) && IsHexDigit(head[2]))
    requires WellEscaped(rest)
    ensures WellEscaped(head + rest)
  {
    var s := head + rest;
    forall i | 0 <= i < |s| && s[i] == '%'
      ensures i + 2 < |s| && IsHexDigit(s[i + 1]) && IsHexDigit(s[i + 2])
    {
      if i >= |head| {
        assert rest[i - |head|] == '%';
      }
    }
  }

  /** Escaping a path and unescaping it again gives the path back. */
  lemma {:induction false} UnescapeEscapePath(p: string)
    ensures Unescape(EscapePath(p), false) == Some(p)
    decreases |p|
  {
    if p != [] {
      UnescapeEscapePath(p[1..]);
      if PathReserved(p[0]) {
        UnescapeReservedStep(p);
      } else {
        UnescapePlainStep(p);
      }
    }
  }

  lemma UnescapeReservedStep(p: string)
    requires p != [] && PathReserved(p[0])
    requires Unescape(EscapePath(p[1..]), false) == Some(p[1..])
    ensures Unescape(EscapePath(p), false) == Some(p)
  {
    EscapedHead(p);
    HexStepChar(EscapePath(p), p);
  }

  lemma EscapedHead(p: string)
    requires p != [] && PathReserved(p[0])
    ensures var e := EscapePath(p);
      |e| >= 3 && e[0] == '%' && e[1] == HexDigit(p[0] as int / 16, true)
      && e[2] == HexDigit(p[0] as int % 16, true) && e[3..] == EscapePath(p[1..])
  {
    var e := EscapePath(p);
    assert e == ['%', HexDigit(p[0] as int / 16, true), HexDigit(p[0] as int % 16, true)] + EscapePath(p[1..]);
  }

  lemma HexStepChar(s: string, p: string)
    requires |s| >= 3 && s[0] == '%' && p != [] && PathReserved(p[0])
    requires s[1] == HexDigit(p[0] as int / 16, true) && s[2] == HexDigit(p[0] as int % 16, true)
    requires Unescape(s[3..], false) == Some(p[1..])
    ensures Unescape(s, false) == Some(p)
  {
    UnescapeHexStep(s, false, p[1..]);
    assert [p[0]] + p[1..] == p;
  }

  /** One `%XX` escape followed by text that unescapes to `t`. */
  lemma UnescapeHexStep(s: string, plusIsSpace: bool, t: string)
    requires |s| >= 3 && s[0] == '%' && IsHexDigit(s[1]) && IsHexDigit(s[2])
    requires Unescape(s[3..], plusIsSpace) == Some(t)
    ensures Unescape(s, plusIsSpace) == Some([(HexValue(s[1]) * 16 + HexValue(s[2])) as char] + t)
  {
  }

  lemma UnescapePlainStep(p: string)
    requires p != [] && !PathReserved(p[0])
    requires Unescape(EscapePath(p[1..]), false) == Some(p[1..])
    ensures Unescape(EscapePath(p), false) == Some(p)
  {
    assert EscapePath(p)[1..] == EscapePath(p[1..]);
    assert p == [p[0]] + p[1..];
  }

  predicate IsDecimalDigit(c: char)
  {
    '0' <= c <= '9'
  }

  /** The decimal digits of `n`, most significant first, without leading zeros. */
  function Digits(n: nat): (r: string)
    ensures |r| >= 1
    ensures forall c <- r :: IsDecimalDigit(c)
    ensures |r| > 1 ==> r[0] != '0'
    decreases n
  {
    var d := ('0' as int + n % 10) as char;
    if n < 10 then [d] else Digits(n / 10) + [d]
  }

  /** Go's `fmt.Sprintf("%d", n)`. */
  function FormatInt(n: int): string
  {
    if n < 0 then "-" + Digits(-n) else Digits(n)
  }

  /** The value of a non-empty run of decimal digits, read from the left. */
  function DigitsValue(s: string): nat
    requires forall c <- s :: IsDecimalDigit(c)
  {
    if s == [] then 0
    else
      assert s[|s| - 1] in s;
      var d := s[|s| - 1] as int - '0' as int;
      assert IsDecimalDigit(s[|s| - 1]) && 0 <= d;
      DigitsValue(s[..|s| - 1]) * 10 + d
  }

  /** Reads back what `FormatInt` writes: an optional minus sign and digits. */
  function ParseInt(s: string): Option<int>
  {
    if |s| >= 1 && s[0] == '-' then
      if |s| >= 2 && (forall c <- s[1..] :: IsDecimalDigit(c)) then Some(0 - DigitsValue(s[1..]) as int) else None
    else if |s| >= 1 && (forall c <- s :: IsDecimalDigit(c)) then Some(DigitsValue(s))
    else None
  }

  lemma {:induction false} DigitsValueOfDigits(n: nat)
    ensures DigitsValue(Digits(n)) == n
    decreases n
  {
    var s := Digits(n);
    if n >= 10 {
      DigitsValueOfDigits(n / 10);
      assert s[..|s| - 1] == Digits(n / 10);
    }
  }

  /** Decimal rendering is reversible. */
  lemma {:induction false} ParseFormatInt(n: int)
    ensures ParseInt(FormatInt(n)) == Some(n)
  {
    if n < 0 {
      DigitsValueOfDigits(-n);
      assert FormatInt(n)[1..] == Digits(-n);
    } else {
      assert Digits(n)[0] in Digits(n);
      DigitsValueOfDigits(n);
    }
  }

  lemma {:induction false} FormatIntAlphabet(n: int)
    ensures forall c <- FormatInt(n) :: IsDecimalDigit(c) || c == '-'
  {
  }
}
