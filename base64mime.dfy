/**
 * Python 2's `s.encode('base64')`, which is `base64.encodestring(s)`: the base64
 * alphabet of section 6.8 of RFC 2045, written in lines of at most 76
 * characters, each line (the last one too) ending in a newline. The input is
 * cut into chunks of 57 bytes, each encoded by `binascii.b2a_base64`, which
 * appends the newline. An empty input gives an empty output.
 *
 * `DecodeLines` is the matching decoder; the round trip makes the encoding
 * injective.
 */
module Base64Mime {
  import opened PyText

  /** Bytes per line: 57 bytes encode to 76 characters. */
  const ChunkSize := 57

  predicate IsSextet(c: char) {
    ('A' <= c <= 'Z') || ('a' <= c <= 'z') || ('0' <= c <= '9') || c == '+' || c == '/'
  }

  /** The base64 alphabet. */
  function Sextet(v: int): (c: Byte)
    requires 0 <= v < 64
    ensures IsSextet(c)
  {
    if v < 26 then ('A' as int + v) as char
    else if v < 52 then ('a' as int + v - 26) as char
    else if v < 62 then ('0' as int + v - 52) as char
    else if v == 62 then '+'
    else '/'
  }

  function SextetValue(c: char): (v: int)
    requires IsSextet(c)
    ensures 0 <= v < 64
  {
    if 'A' <= c <= 'Z' then c as int - 'A' as int
    else if 'a' <= c <= 'z' then c as int - 'a' as int + 26
    else if '0' <= c <= '9' then c as int - '0' as int + 52
    else if c == '+' then 62
    else 63
  }

  lemma SextetRoundTrip(v: int)
    requires 0 <= v < 64
    ensures SextetValue(Sextet(v)) == v
  {
  }

  /** The four characters of a group of three bytes. */
  function EncodeGroup(b0: int, b1: int, b2: int): (r: PyStr)
    requires 0 <= b0 < 256 && 0 <= b1 < 256 && 0 <= b2 < 256
    ensures |r| == 4 && forall i :: 0 <= i < 4 ==> IsSextet(r[i])
  {
    [Sextet(b0 / 4), Sextet(b0 % 4 * 16 + b1 / 16), Sextet(b1 % 16 * 4 + b2 / 64), Sextet(b2 % 64)]
  }

  /** `binascii.b2a_base64(s)` without its trailing newline: groups of three
      bytes become four characters; a short last group is completed with zero
      bits and padded with `=`. */
  function Encode(s: PyStr): PyStr
    decreases |s|
  {
    if s == [] then []
    else if |s| == 1 then EncodeGroup(s[0] as int, 0, 0)[..2] + "=="
    else if |s| == 2 then EncodeGroup(s[0] as int, s[1] as int, 0)[..3] + "="
    else EncodeGroup(s[0] as int, s[1] as int, s[2] as int) + Encode(s[3..])
  }

  /** `base64.encodestring(s)`: one newline-terminated line per 57-byte chunk,
      so the output is empty exactly when the input is, and otherwise ends in
      a newline. */
  function EncodeLines(s: PyStr): (r: PyStr)
    ensures r == [] <==> s == []
    ensures s != [] ==> r[|r| - 1] == '\n'
    decreases |s|
  {
    if s == [] then []
    else if |s| <= ChunkSize then Encode(s) + "\n"
    else Encode(s[..ChunkSize]) + "\n" + EncodeLines(s[ChunkSize..])
  }

  /** The byte carried by the first two characters of a group. */
  function Byte0(c0: char, c1: char): Byte
    requires IsSextet(c0) && IsSextet(c1)
  {
    (SextetValue(c0) * 4 + SextetValue(c1) / 16) as char
  }

  /** The byte carried by the second and third characters of a group. */
  function Byte1(c1: char, c2: char): Byte
    requires IsSextet(c1) && IsSextet(c2)
  {
    (SextetValue(c1) % 16 * 16 + SextetValue(c2) / 4) as char
  }

  /** The byte carried by the last two characters of a group. */
  function Byte2(c2: char, c3: char): Byte
    requires IsSextet(c2) && IsSextet(c3)
  {
    (SextetValue(c2) % 4 * 64 + SextetValue(c3)) as char
  }

  /** Decodes groups of four characters; stops at anything malformed. */
  function Decode(r: PyStr): PyStr
    decreases |r|
  {
    if |r| < 4 || !IsSextet(r[0]) || !IsSextet(r[1]) then []
    else if r[2] == '=' then [Byte0(r[0], r[1])]
    else if !IsSextet(r[2]) then []
    else if r[3] == '=' then [Byte0(r[0], r[1]), Byte1(r[1], r[2])]
    else if !IsSextet(r[3]) then []
    else [Byte0(r[0], r[1]), Byte1(r[1], r[2]), Byte2(r[2], r[3])] + Decode(r[4..])
  }

  /** Drops the line breaks. */
  function Unwrap(r: PyStr): PyStr {
    if r == [] then [] else (if r[0] == '\n' then [] else [r[0]]) + Unwrap(r[1..])
  }

  /** Decoding of wrapped lines: the line breaks are dropped first. */
  function DecodeLines(r: PyStr): PyStr {
    Decode(Unwrap(r))
  }

  /** The bit arithmetic of a group: each byte is recovered from the two
      sextets it was spread over. */
  lemma SplitBits(b0: int, b1: int, b2: int)
    requires 0 <= b0 < 256 && 0 <= b1 < 256 && 0 <= b2 < 256
    ensures b0 / 4 * 4 + (b0 % 4 * 16 + b1 / 16) / 16 == b0
    ensures (b0 % 4 * 16 + b1 / 16) % 16 * 16 + (b1 % 16 * 4 + b2 / 64) / 4 == b1
    ensures (b1 % 16 * 4 + b2 / 64) % 4 * 64 + b2 % 64 == b2
  {
    var q0, r0 := b0 / 4, b0 % 4;
    var q1, r1 := b1 / 16, b1 % 16;
    var q2, r2 := b2 / 64, b2 % 64;
    assert b0 == q0 * 4 + r0 && b1 == q1 * 16 + r1 && b2 == q2 * 64 + r2;
    assert (r0 * 16 + q1) / 16 == r0 && (r0 * 16 + q1) % 16 == q1;
    assert (r1 * 4 + q2) / 4 == r1 && (r1 * 4 + q2) % 4 == q2;
  }

  /** Each byte of a group is recovered from the two characters that carry it. */
  lemma ByteRoundTrip(b0: int, b1: int, b2: int)
    requires 0 <= b0 < 256 && 0 <= b1 < 256 && 0 <= b2 < 256
    ensures var g := EncodeGroup(b0, b1, b2);
      Byte0(g[0], g[1]) == b0 as char && Byte1(g[1], g[2]) == b1 as char && Byte2(g[2], g[3]) == b2 as char
  {
    SplitBits(b0, b1, b2);
    SextetRoundTrip(b0 / 4);
    SextetRoundTrip(b0 % 4 * 16 + b1 / 16);
    SextetRoundTrip(b1 % 16 * 4 + b2 / 64);
    SextetRoundTrip(b2 % 64);
  }

  /** A group of four characters whose sextets carry the bytes `t`. */
  predicate Carries(g: PyStr, t: PyStr)
    requires |g| == 4 && forall i :: 0 <= i < 4 ==> IsSextet(g[i])
  {
    (|t| >= 1 ==> Byte0(g[0], g[1]) == t[0]) &&
    (|t| >= 2 ==> Byte1(g[1], g[2]) == t[1]) &&
    (|t| >= 3 ==> Byte2(g[2], g[3]) == t[2])
  }

  /** The group of `t`'s three bytes carries them. */
  lemma EncodeGroupCarries(t: PyStr)
    requires 1 <= |t| <= 3
    ensures var g := EncodeGroup(t[0] as int, if |t| >= 2 then t[1] as int else 0, if |t| == 3 then t[2] as int else 0);
      Carries(g, t)
  {
    ByteRoundTrip(t[0] as int, if |t| >= 2 then t[1] as int else 0, if |t| == 3 then t[2] as int else 0);
  }

  /** How `Decode` reads a full group. */
  lemma DecodeGroup(g: PyStr, t: PyStr, rest: PyStr)
    requires |g| == 4 && forall i :: 0 <= i < 4 ==> IsSextet(g[i])
    requires |t| == 3 && Carries(g, t)
    ensures Decode(g + rest) == t + Decode(rest)
  {
    assert (g + rest)[4..] == rest;
    assert [Byte0(g[0], g[1]), Byte1(g[1], g[2]), Byte2(g[2], g[3])] == t;
  }

  /** How `Decode` reads a group padded with `=`. */
  lemma DecodePaddedTwo(g: PyStr, t: PyStr)
    requires |g| == 4 && forall i :: 0 <= i < 4 ==> IsSextet(g[i])
    requires |t| == 2 && Carries(g, t)
    ensures Decode(g[..3] + "=") == t
  {
    assert [Byte0(g[0], g[1]), Byte1(g[1], g[2])] == t;
  }

  /** How `Decode` reads a group padded with `==`. */
  lemma DecodePaddedOne(g: PyStr, t: PyStr)
    requires |g| == 4 && forall i :: 0 <= i < 4 ==> IsSextet(g[i])
    requires |t| == 1 && Carries(g, t)
    ensures Decode(g[..2] + "==") == t
  {
    assert [Byte0(g[0], g[1])] == t;
  }

  /** A full group of four characters decodes to its three bytes. */
  lemma DecodeFullGroup(s: PyStr, rest: PyStr)
    requires |s| == 3
    ensures Decode(Encode(s) + rest) == s + Decode(rest)
  {
    var g := EncodeGroup(s[0] as int, s[1] as int, s[2] as int);
    assert Encode(s) == g by {
      assert s[3..] == [];
    }
    EncodeGroupCarries(s);
    DecodeGroup(g, s, rest);
  }

  /** A group padded with `==` decodes to its one byte. */
  lemma DecodeOneByte(s: PyStr)
    requires |s| == 1
    ensures Decode(Encode(s)) == s
  {
    var g := EncodeGroup(s[0] as int, 0, 0);
    EncodeGroupCarries(s);
    DecodePaddedOne(g, s);
  }

  /** A group padded with `=` decodes to its two bytes. */
  lemma DecodeTwoBytes(s: PyStr)
    requires |s| == 2
    ensures Decode(Encode(s)) == s
  {
    var g := EncodeGroup(s[0] as int, s[1] as int, 0);
    EncodeGroupCarries(s);
    DecodePaddedTwo(g, s);
  }

  /** Decoding undoes the encoding. */
  lemma {:induction false} DecodeEncode(s: PyStr)
    ensures Decode(Encode(s)) == s
    decreases |s|
  {
    if |s| == 1 {
      DecodeOneByte(s);
    } else if |s| == 2 {
      DecodeTwoBytes(s);
    } else if |s| > 2 {
      EncodeConcat(s[..3], s[3..]);
      assert s == s[..3] + s[3..];
      DecodeFullGroup(s[..3], Encode(s[3..]));
      DecodeEncode(s[3..]);
    }
  }

  /** Four characters for every started group of three bytes. */
  lemma {:induction false} EncodeLength(s: PyStr)
    ensures |Encode(s)| == 4 * ((|s| + 2) / 3)
    decreases |s|
  {
    if |s| > 2 {
      EncodeLength(s[3..]);
      var n := |s| - 3;
      assert (n + 2) / 3 + 1 == (n + 5) / 3;
      assert |Encode(s)| == 4 + |Encode(s[3..])|;
    }
  }

  /** The encoding uses the base64 alphabet and `=` only: no line breaks. */
  lemma {:induction false} EncodeAlphabet(s: PyStr)
    ensures forall i :: 0 <= i < |Encode(s)| ==> IsSextet(Encode(s)[i]) || Encode(s)[i] == '='
    decreases |s|
  {
    if |s| > 2 {
      EncodeAlphabet(s[3..]);
    }
  }

  /** Encoding a whole number of groups and then the rest is encoding both at once. */
  lemma {:induction false} EncodeConcat(a: PyStr, b: PyStr)
    requires |a| % 3 == 0
    ensures Encode(a + b) == Encode(a) + Encode(b)
    decreases |a|
  {
    if a == [] {
      assert a + b == b;
    } else {
      assert (a + b)[3..] == a[3..] + b;
      EncodeConcat(a[3..], b);
    }
  }

  lemma {:induction false} UnwrapConcat(a: PyStr, b: PyStr)
    ensures Unwrap(a + b) == Unwrap(a) + Unwrap(b)
  {
    if a == [] {
      assert a + b == b;
    } else {
      assert (a + b)[1..] == a[1..] + b;
      UnwrapConcat(a[1..], b);
    }
  }

  lemma {:induction false} UnwrapEncode(s: PyStr)
    ensures Unwrap(Encode(s)) == Encode(s)
  {
    var e := Encode(s);
    EncodeAlphabet(s);
    UnwrapNoBreak(e);
  }

  lemma {:induction false} UnwrapNoBreak(r: PyStr)
    requires forall i :: 0 <= i < |r| ==> r[i] != '\n'
    ensures Unwrap(r) == r
  {
    if r != [] {
      UnwrapNoBreak(r[1..]);
    }
  }

  /** A line without breaks, its newline, then the rest: unwrapping keeps the line. */
  lemma UnwrapLine(e: PyStr, rest: PyStr)
    requires Unwrap(e) == e
    ensures Unwrap(e + "\n" + rest) == e + Unwrap(rest)
  {
    var nl: PyStr := "\n";
    assert Unwrap(nl) == [] by {
      assert nl[1..] == [];
    }
    UnwrapConcat(e + nl, rest);
    UnwrapConcat(e, nl);
    assert e + [] == e;
  }

  /** Removing the line breaks of `encodestring` leaves the plain encoding. */
  lemma {:induction false} UnwrapEncodeLines(s: PyStr)
    ensures Unwrap(EncodeLines(s)) == Encode(s)
    decreases |s|
  {
    if s == [] {
    } else if |s| <= ChunkSize {
      UnwrapEncode(s);
      UnwrapLine(Encode(s), []);
      assert Encode(s) + "\n" + [] == EncodeLines(s);
    } else {
      var head, tail := s[..ChunkSize], s[ChunkSize..];
      UnwrapEncode(head);
      UnwrapLine(Encode(head), EncodeLines(tail));
      UnwrapEncodeLines(tail);
      EncodeConcat(head, tail);
      assert s == head + tail;
    }
  }

  /** `DecodeLines` undoes `EncodeLines`. */
  lemma EncodeLinesRoundTrip(s: PyStr)
    ensures DecodeLines(EncodeLines(s)) == s
  {
    UnwrapEncodeLines(s);
    DecodeEncode(s);
  }

  /** Distinct inputs give distinct encodings. */
  lemma EncodeLinesInjective(a: PyStr, b: PyStr)
    requires EncodeLines(a) == EncodeLines(b)
    ensures a == b
  {
    EncodeLinesRoundTrip(a);
    EncodeLinesRoundTrip(b);
  }

  /** A full chunk fills one line of exactly 76 characters before its newline. */
  lemma FullLine(s: PyStr)
    requires |s| > ChunkSize
    ensures EncodeLines(s) == Encode(s[..ChunkSize]) + "\n" + EncodeLines(s[ChunkSize..])
    ensures |Encode(s[..ChunkSize])| == 76
  {
    assert |s[..ChunkSize]| == 57;
    EncodeLength(s[..ChunkSize]);
    assert 4 * ((57 + 2) / 3) == 76;
  }

  /** A last chunk gives one line of at most 76 characters before its newline. */
  lemma LastLine(s: PyStr)
    requires 0 < |s| <= ChunkSize
    ensures EncodeLines(s) == Encode(s) + "\n" && |Encode(s)| <= 76
  {
    EncodeLength(s);
    assert (|s| + 2) / 3 <= 19;
  }
}
