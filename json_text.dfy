/** Python's `json.dumps` applied to a one-key dictionary `{'error': msg}`,
    with its default settings: `ensure_ascii=True` (every character outside
    printable ASCII is written as `\uXXXX` with lower-case hex digits, and
    characters beyond U+FFFF as a UTF-16 surrogate pair) and the separators
    ", " and ": ". A decoder for JSON string bodies shows that the escaping loses
    nothing. */
module JsonText {
  import opened PyText

  function HexDigit(d: int): (c: char)
    requires 0 <= d < 16
    ensures '0' <= c <= '9' || 'a' <= c <= 'f'
  {
    if d < 10 then (d + '0' as int) as char else (d - 10 + 'a' as int) as char
  }

  /** Value of a hexadecimal digit, either case as JSON allows. */
  function HexValue(c: char): Option<int> {
    if '0' <= c <= '9' then Some(c as int - '0' as int)
    else if 'a' <= c <= 'f' then Some(c as int - 'a' as int + 10)
    else if 'A' <= c <= 'F' then Some(c as int - 'A' as int + 10)
    else None
  }

  /** Python's `'{0:04x}'.format(n)` for `n` below 0x10000. */
  function Hex4(n: int): (s: string)
    requires 0 <= n < 0x10000
    ensures |s| == 4
  {
    var q1 := n / 16;
    var q2 := q1 / 16;
    [HexDigit(q2 / 16), HexDigit(q2 % 16), HexDigit(q1 % 16), HexDigit(n % 16)]
  }

  function ParseHex4(s: string): Option<int>
    requires |s| == 4
  {
    var a, b, c, d := HexValue(s[0]), HexValue(s[1]), HexValue(s[2]), HexValue(s[3]);
    if a.Some? && b.Some? && c.Some? && d.Some? then
      Some(a.value * 0x1000 + b.value * 0x100 + c.value * 0x10 + d.value)
    else None
  }

  lemma HexDigitValue(d: int)
    requires 0 <= d < 16
    ensures HexValue(HexDigit(d)) == Some(d)
  {
  }

  lemma ParseHex4OfHex4(n: int)
    requires 0 <= n < 0x10000
    ensures ParseHex4(Hex4(n)) == Some(n)
  {
    var q1 := n / 16;
    var q2 := q1 / 16;
    HexDigitValue(q2 / 16);
    HexDigitValue(q2 % 16);
    HexDigitValue(q1 % 16);
    HexDigitValue(n % 16);
    assert n == q1 * 16 + n % 16;
    assert q1 == q2 * 16 + q1 % 16;
    assert q2 == (q2 / 16) * 16 + q2 % 16;
  }

  function Unicode4(n: int): (s: string)
    requires 0 <= n < 0x10000
    ensures |s| == 6
  {
    "\\u" + Hex4(n)
  }

  /** The escape Python's ASCII encoder writes for one character. */
  function EscapeChar(c: char): (s: string)
    ensures 1 <= |s|
    ensures forall i :: 0 <= i < |s| ==> ' ' <= s[i] <= '~'
  {
    if c == '"' then "\\\""
    else if c == '\\' then "\\\\"
    else if c == '\n' then "\\n"
    else if c == '\r' then "\\r"
    else if c == '\t' then "\\t"
    else if c as int == 0x08 then "\\b"
    else if c as int == 0x0C then "\\f"
    else if ' ' <= c <= '~' then [c]
    else if c as int < 0x10000 then Unicode4(c as int)
    else
      var v := c as int - 0x10000;
      Unicode4(0xD800 + v / 0x400) + Unicode4(0xDC00 + v % 0x400)
  }

  /** The body (between the quotes) of `json.dumps(s)`; it consists of printable
      ASCII only, so it never contains a line break or a raw quote. */
  function Escape(s: string): (r: string)
    ensures forall i :: 0 <= i < |r| ==> ' ' <= r[i] <= '~'
    ensures |r| >= |s|
  {
    if |s| == 0 then "" else EscapeChar(s[0]) + Escape(s[1..])
  }

  /** `json.dumps(s)` for a string `s`. */
  function DumpsString(s: string): string {
    "\"" + Escape(s) + "\""
  }

  /** `json.dumps({'error': msg})`. */
  function ErrorObject(msg: string): (r: string)
    ensures forall i :: 0 <= i < |r| ==> ' ' <= r[i] <= '~'
  {
    "{\"error\": " + DumpsString(msg) + "}"
  }

  predicate IsHighSurrogate(n: int) { 0xD800 <= n < 0xDC00 }
  predicate IsLowSurrogate(n: int) { 0xDC00 <= n < 0xE000 }

  /** Decode the body of a JSON string literal; `None` for a malformed body or
      for an unpaired surrogate (which a Dafny string cannot hold). */
  function Unescape(r: string): Option<string>
    decreases |r|
  {
    if |r| == 0 then Some("")
    else if r[0] == '"' || r[0] as int < 0x20 then None
    else if r[0] != '\\' then Prepend(r[0], Unescape(r[1..]))
    else if |r| < 2 then None
    else
      var e := r[1];
      if e == '"' || e == '\\' || e == '/' then Prepend(e, Unescape(r[2..]))
      else if e == 'b' then Prepend(8 as char, Unescape(r[2..]))
      else if e == 'f' then Prepend(12 as char, Unescape(r[2..]))
      else if e == 'n' then Prepend('\n', Unescape(r[2..]))
      else if e == 'r' then Prepend('\r', Unescape(r[2..]))
      else if e == 't' then Prepend('\t', Unescape(r[2..]))
      else if e != 'u' || |r| < 6 then None
      else
        var hi := ParseHex4(r[2..6]);
        if hi.None? then None
        else if IsHighSurrogate(hi.value) then
          if |r| < 12 || r[6] != '\\' || r[7] != 'u' then None
          else
            var lo := ParseHex4(r[8..12]);
            if lo.None? || !IsLowSurrogate(lo.value) then None
            else Prepend((0x10000 + (hi.value - 0xD800) * 0x400 + (lo.value - 0xDC00)) as char, Unescape(r[12..]))
        else if IsLowSurrogate(hi.value) then None
        else Prepend(hi.value as char, Unescape(r[6..]))
  }

  function Prepend(c: char, rest: Option<string>): Option<string> {
    if rest.Some? then Some([c] + rest.value) else None
  }

  lemma UnescapeShortEscape(c: char, rest: string)
    requires c == '"' || c == '\\' || c == '\n' || c == '\r' || c == '\t' || c as int == 0x08 || c as int == 0x0C
    ensures Unescape(EscapeChar(c) + rest) == Prepend(c, Unescape(rest))
  {
    assert (EscapeChar(c) + rest)[2..] == rest;
  }

  lemma UnescapePrintable(c: char, rest: string)
    requires ' ' <= c <= '~' && c != '"' && c != '\\'
    ensures Unescape(EscapeChar(c) + rest) == Prepend(c, Unescape(rest))
  {
    assert (EscapeChar(c) + rest)[1..] == rest;
  }

  lemma UnescapeBasicPlane(c: char, rest: string)
    requires !(' ' <= c <= '~') && c != '\n' && c != '\r' && c != '\t' && c as int != 0x08 && c as int != 0x0C
    requires c as int < 0x10000
    ensures Unescape(EscapeChar(c) + rest) == Prepend(c, Unescape(rest))
  {
    var r := EscapeChar(c) + rest;
    assert EscapeChar(c) == Unicode4(c as int);
    ParseHex4OfHex4(c as int);
    assert r[2..6] == Hex4(c as int);
    assert r[6..] == rest;
  }

  lemma UnescapeAstral(c: char, rest: string)
    requires c as int >= 0x10000
    ensures Unescape(EscapeChar(c) + rest) == Prepend(c, Unescape(rest))
  {
    var r := EscapeChar(c) + rest;
    var v := c as int - 0x10000;
    var hi, lo := 0xD800 + v / 0x400, 0xDC00 + v % 0x400;
    assert EscapeChar(c) == Unicode4(hi) + Unicode4(lo);
    ParseHex4OfHex4(hi);
    ParseHex4OfHex4(lo);
    assert r[2..6] == Hex4(hi);
    assert r[8..12] == Hex4(lo);
    assert r[6] == '\\' && r[7] == 'u';
    assert r[12..] == rest;
    assert 0x10000 + (hi - 0xD800) * 0x400 + (lo - 0xDC00) == c as int;
  }

  lemma UnescapeChar(c: char, rest: string)
    ensures Unescape(EscapeChar(c) + rest) == Prepend(c, Unescape(rest))
  {
    if c == '"' || c == '\\' || c == '\n' || c == '\r' || c == '\t' || c as int == 0x08 || c as int == 0x0C {
      UnescapeShortEscape(c, rest);
    } else if ' ' <= c <= '~' {
      UnescapePrintable(c, rest);
    } else if c as int < 0x10000 {
      UnescapeBasicPlane(c, rest);
    } else {
      UnescapeAstral(c, rest);
    }
  }

  /** Decoding the escaped body gives back the original text. */
  lemma {:induction false} UnescapeEscape(s: string)
    ensures Unescape(Escape(s)) == Some(s)
    decreases |s|
  {
    if |s| > 0 {
      UnescapeChar(s[0], Escape(s[1..]));
      UnescapeEscape(s[1..]);
      assert [s[0]] + s[1..] == s;
    }
  }

  /** The error document is `{"error": "<body>"}` and its body decodes to the
      message. */
  lemma ErrorObjectRoundTrip(msg: string)
    ensures var doc := ErrorObject(msg);
      && StartsWith(doc, "{\"error\": \"")
      && EndsWith(doc, "\"}")
      && Unescape(doc[11..|doc| - 2]) == Some(msg)
  {
    var doc := ErrorObject(msg);
    assert doc[11..|doc| - 2] == Escape(msg);
    UnescapeEscape(msg);
  }
}
