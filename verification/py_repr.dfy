/** Python's `repr()` of a `str`, as used by the `%r` conversion, together
    with a decoder for the literal it produces. The decoder is the partner
    that shows the rendering loses nothing: `ParseRepr(Repr(s) + rest)`
    gives back `s` and `rest`. */
module PyRepr {
  import opened PyErrors

  /** Python quotes with `'` unless the text holds `'` and no `"`. */
  function QuoteFor(s: string): (q: char)
    ensures q == '\'' || q == '"'
    ensures q == '"' <==> '\'' in s && '"' !in s
  {
    if '\'' in s && '"' !in s then '"' else '\''
  }

  /** Characters that `repr` writes as `\xHH`: the C0 controls other than
      tab, newline and carriage return, DEL, the C1 controls, the no-break
      space and the soft hyphen. */
  predicate NeedsHexEscape(c: char) {
    || (c < ' ' && c != '\t' && c != '\n' && c != '\r')
    || ('\U{7F}' <= c <= '\U{A0}')
    || c == '\U{AD}'
  }

  function HexDigit(d: nat): (c: char)
    requires d < 16
    ensures IsHexDigit(c) && HexValue(c) == d
  {
    if d < 10 then ('0' as int + d) as char else ('a' as int + d - 10) as char
  }

  predicate IsHexDigit(c: char) {
    ('0' <= c <= '9') || ('a' <= c <= 'f') || ('A' <= c <= 'F')
  }

  function HexValue(c: char): (v: nat)
    requires IsHexDigit(c)
    ensures v < 16
  {
    if '0' <= c <= '9' then c as int - '0' as int
    else if 'a' <= c <= 'f' then c as int - 'a' as int + 10
    else c as int - 'A' as int + 10
  }

  /** Characters that `repr` writes as they are between the quotes `q`. */
  predicate Plain(c: char, q: char) {
    !(c == q || c == '\\' || c == '\t' || c == '\n' || c == '\r' || NeedsHexEscape(c))
  }

  /** How one character appears between the quotes `q`. */
  function EscapeChar(c: char, q: char): (r: string)
    ensures 1 <= |r| <= 4
    ensures |r| == 1 <==> Plain(c, q)
    ensures Plain(c, q) ==> r == [c]
    ensures |r| > 1 ==> r[0] == '\\'
    ensures c == '\\' ==> r == "\\\\"
    ensures c == q ==> r == ['\\', q]
    ensures c != q && c == '\t' ==> r == "\\t"
    ensures c != q && c == '\n' ==> r == "\\n"
    ensures c != q && c == '\r' ==> r == "\\r"
    ensures c != q && NeedsHexEscape(c) ==>
      |r| == 4 && r[1] == 'x' && IsHexDigit(r[2]) && IsHexDigit(r[3])
      && !('A' <= r[2] <= 'F') && !('A' <= r[3] <= 'F')
      && 16 * HexValue(r[2]) + HexValue(r[3]) == c as int
  {
    if c == q || c == '\\' then ['\\', c]
    else if c == '\t' then "\\t"
    else if c == '\n' then "\\n"
    else if c == '\r' then "\\r"
    else if NeedsHexEscape(c) then
      ['\\', 'x', HexDigit(c as int / 16), HexDigit(c as int % 16)]
    else [c]
  }

  /** The characters of `s` as they appear between the quotes `q`. */
  function EscapeBody(s: string, q: char): (r: string)
    ensures |s| <= |r| <= 4 * |s|
    ensures |r| == |s| ==> r == s
    ensures (forall i | 0 <= i < |s| :: Plain(s[i], q)) ==> r == s
  {
    if |s| == 0 then ""
    else
      var head := EscapeChar(s[0], q);
      var tail := EscapeBody(s[1..], q);
      assert |head| == 1 ==> head + tail == [s[0]] + tail;
      assert s == [s[0]] + s[1..];
      head + tail
  }

  /** `repr(s)` for a Python `str`. */
  function Repr(s: string): (r: string)
    ensures |r| >= |s| + 2
    ensures r[0] == r[|r| - 1] == QuoteFor(s)
  {
    var q := QuoteFor(s);
    [q] + EscapeBody(s, q) + [q]
  }

  function Cons(c: char, r: Option<(string, string)>): Option<(string, string)> {
    match r
    case None => None
    case Some((decoded, rest)) => Some(([c] + decoded, rest))
  }

  /** Decodes the inside of a literal quoted with `q`, up to and including
      its closing quote; returns the decoded text and what follows the
      closing quote, or None when the text is not such a literal. */
  function Unescape(t: string, q: char): (r: Option<(string, string)>)
    ensures r.Some? ==> |r.value.0| < |t| && |r.value.1| < |t|
    decreases |t|
  {
    if |t| == 0 then None
    else if t[0] == q then Some(("", t[1..]))
    else if t[0] != '\\' then Cons(t[0], Unescape(t[1..], q))
    else if |t| < 2 then None
    else
      var e := t[1];
      if e == '\\' || e == '\'' || e == '"' then Cons(e, Unescape(t[2..], q))
      else if e == 't' then Cons('\t', Unescape(t[2..], q))
      else if e == 'n' then Cons('\n', Unescape(t[2..], q))
      else if e == 'r' then Cons('\r', Unescape(t[2..], q))
      else if e == 'x' && |t| >= 4 && IsHexDigit(t[2]) && IsHexDigit(t[3]) then
        Cons((16 * HexValue(t[2]) + HexValue(t[3])) as char, Unescape(t[4..], q))
      else None
  }

  /** Reads one quoted literal at the front of `t`; returns its value and
      the text after it. */
  function ParseRepr(t: string): (r: Option<(string, string)>)
    ensures r.Some? ==> |r.value.1| + 2 <= |t|
  {
    if |t| > 0 && (t[0] == '\'' || t[0] == '"') then Unescape(t[1..], t[0])
    else None
  }

  /** One escaped character decodes back to itself. */
  lemma EscapeCharDecodes(c: char, q: char, t: string)
    requires q == '\'' || q == '"'
    ensures Unescape(EscapeChar(c, q) + t, q) == Cons(c, Unescape(t, q))
  {
    var x := EscapeChar(c, q) + t;
    if c == q || c == '\\' || c == '\t' || c == '\n' || c == '\r' {
      assert x[2..] == t;
    } else if NeedsHexEscape(c) {
      var n := c as int;
      assert x[4..] == t;
      assert x[2] == HexDigit(n / 16) && x[3] == HexDigit(n % 16);
      assert (16 * HexValue(x[2]) + HexValue(x[3])) == n;
    } else {
      assert x[1..] == t;
    }
  }

  /** The escaped body followed by the closing quote decodes back to the
      original text, leaving what follows untouched. */
  lemma {:induction false} UnescapeEscapeBody(s: string, q: char, rest: string)
    requires q == '\'' || q == '"'
    ensures Unescape(EscapeBody(s, q) + [q] + rest, q) == Some((s, rest))
  {
    if |s| == 0 {
      assert EscapeBody(s, q) + [q] + rest == [q] + rest;
    } else {
      var tail := EscapeBody(s[1..], q) + [q] + rest;
      assert EscapeBody(s, q) + [q] + rest == EscapeChar(s[0], q) + tail;
      EscapeCharDecodes(s[0], q, tail);
      UnescapeEscapeBody(s[1..], q, rest);
      assert s == [s[0]] + s[1..];
    }
  }

  /** `repr` is decodable: the literal read back from the front of
      `Repr(s) + rest` is `s`, and the remaining text is `rest`. */
  lemma ReprRoundTrip(s: string, rest: string)
    ensures ParseRepr(Repr(s) + rest) == Some((s, rest))
  {
    var q := QuoteFor(s);
    var t := Repr(s) + rest;
    assert t[0] == q;
    assert t[1..] == EscapeBody(s, q) + [q] + rest;
    UnescapeEscapeBody(s, q, rest);
  }

  /** Different texts have different reprs, even as prefixes of longer text. */
  lemma ReprInjective(s1: string, rest1: string, s2: string, rest2: string)
    requires Repr(s1) + rest1 == Repr(s2) + rest2
    ensures s1 == s2 && rest1 == rest2
  {
    ReprRoundTrip(s1, rest1);
    ReprRoundTrip(s2, rest2);
  }

  /** An example: the backslash of a Windows path is doubled. */
  lemma ReprDoublesBackslash()
    ensures Repr("C:\\t") == "'C:\\\\t'"
  {
  }

  /** A text holding `'` and no `"` is quoted with `"`. */
  lemma ReprSwitchesQuote()
    ensures Repr("it's") == "\"it's\""
  {
  }

  /** A control character comes out as a two-digit lower-case hex escape. */
  lemma ReprHexEscape()
    ensures Repr("a\U{1B}") == "'a\\x1b'"
  {
  }
}
