/**
 * Python 2's `urllib.quote(s, '')`: percent-encoding in the sense of section 2.1
 * of RFC 3986. With an empty `safe` argument only ASCII letters, digits and
 * `_`, `.`, `-` stand for themselves; every other byte becomes `%XX` with two
 * upper-case hexadecimal digits, so `/` is always escaped.
 *
 * `Unquote` is the matching decoder; proving `Unquote(Quote(s)) == s` makes
 * `Quote` injective, which is what keeps the URIs of distinct keys distinct.
 */
module Quoting {
  import opened PyText

  /** The bytes `quote` never escapes when `safe` is empty. */
  predicate AlwaysSafe(c: char) {
    ('A' <= c <= 'Z') || ('a' <= c <= 'z') || ('0' <= c <= '9') || c == '_' || c == '.' || c == '-'
  }

  /** The upper-case hexadecimal digit for a nibble. */
  function HexDigit(v: int): (d: Byte)
    requires 0 <= v < 16
    ensures AlwaysSafe(d)
  {
    if v < 10 then ('0' as int + v) as char else ('A' as int + v - 10) as char
  }

  predicate IsHexDigit(c: char) {
    ('0' <= c <= '9') || ('A' <= c <= 'F') || ('a' <= c <= 'f')
  }

  function HexValue(c: char): (v: int)
    requires IsHexDigit(c)
    ensures 0 <= v < 16
  {
    if '0' <= c <= '9' then c as int - '0' as int
    else if 'A' <= c <= 'F' then c as int - 'A' as int + 10
    else c as int - 'a' as int + 10
  }

  /** How `quote` writes one byte. */
  function QuoteByte(c: Byte): PyStr {
    if AlwaysSafe(c) then [c] else ['%', HexDigit(c as int / 16), HexDigit(c as int % 16)]
  }

  /** `urllib.quote(s, '')`: every byte of the output is a safe byte or the
      `%` of an escape, and `Unquote` gives the input back. */
  function Quote(s: PyStr): (r: PyStr)
    ensures forall i :: 0 <= i < |r| ==> AlwaysSafe(r[i]) || r[i] == '%'
    ensures Unquote(r) == s
  {
    if s == [] then []
    else
      UnquoteByte(s[0], Quote(s[1..]));
      QuoteByte(s[0]) + Quote(s[1..])
  }

  /** Decodes `%XX` escapes; any other byte stands for itself. */
  function Unquote(s: PyStr): PyStr
    decreases |s|
  {
    if s == [] then []
    else if s[0] == '%' && |s| >= 3 && IsHexDigit(s[1]) && IsHexDigit(s[2]) then
      [(HexValue(s[1]) * 16 + HexValue(s[2])) as char] + Unquote(s[3..])
    else [s[0]] + Unquote(s[1..])
  }

  lemma {:induction false} QuoteConcat(a: PyStr, b: PyStr)
    ensures Quote(a + b) == Quote(a) + Quote(b)
  {
    if a == [] {
      assert a + b == b;
    } else {
      assert (a + b)[1..] == a[1..] + b;
      QuoteConcat(a[1..], b);
    }
  }

  lemma HexRoundTrip(c: Byte)
    ensures IsHexDigit(HexDigit(c as int / 16)) && IsHexDigit(HexDigit(c as int % 16))
    ensures HexValue(HexDigit(c as int / 16)) * 16 + HexValue(HexDigit(c as int % 16)) == c as int
  {
  }

  /** Decoding undoes the encoding of one byte, whatever follows it. */
  lemma UnquoteByte(c: Byte, rest: PyStr)
    ensures Unquote(QuoteByte(c) + rest) == [c] + Unquote(rest)
  {
    var q := QuoteByte(c) + rest;
    if AlwaysSafe(c) {
      assert q[0] == c && q[1..] == rest;
    } else {
      HexRoundTrip(c);
      assert q[3..] == rest;
    }
  }

  /** Distinct strings quote to distinct strings. */
  lemma QuoteInjective(a: PyStr, b: PyStr)
    requires Quote(a) == Quote(b)
    ensures a == b
  {
    assert Unquote(Quote(a)) == a && Unquote(Quote(b)) == b;
  }

  /** The output never contains `/`, so a quoted key is exactly one path segment. */
  lemma QuoteNoSlash(s: PyStr)
    ensures '/' !in Quote(s)
  {
    var q := Quote(s);
    assert forall i :: 0 <= i < |q| ==> q[i] != '/';
  }

  /** Quoting leaves a string unchanged exactly when all its bytes are safe. */
  lemma {:induction false} QuoteIdentity(s: PyStr)
    ensures Quote(s) == s <==> forall i :: 0 <= i < |s| ==> AlwaysSafe(s[i])
    ensures |Quote(s)| >= |s|
  {
    if s != [] {
      QuoteIdentity(s[1..]);
      if AlwaysSafe(s[0]) {
        assert Quote(s) == [s[0]] + Quote(s[1..]);
        assert s == [s[0]] + s[1..];
      } else {
        assert |Quote(s)| == 3 + |Quote(s[1..])|;
      }
    }
  }

  /** Only the empty string quotes to the empty string. */
  lemma QuoteEmpty(s: PyStr)
    ensures Quote(s) == [] <==> s == []
  {
    QuoteIdentity(s);
  }
}
