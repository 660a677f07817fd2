/**
  `encodeURIComponent`, and the percent-decoding (section 2.1 of RFC 3986) and UTF-8 decoding
  that undo it. A `char` is a Unicode scalar value, so the lone surrogates on which the
  original throws do not arise.
*/
module UriEncoding {

  /** The characters that are left as they are. */
  predicate Unreserved(c: char) {
    'A' <= c <= 'Z' || 'a' <= c <= 'z' || '0' <= c <= '9' || c in {'-', '_', '.', '!', '~', '*', '\'', '(', ')'}
  }

  /** ASCII letters, digits and nine marks stay as they are: `!'()*-._~`. */
  ghost predicate Kept(code: int) {
    || 48 <= code <= 57 || 65 <= code <= 90 || 97 <= code <= 122
    || code == 33 || 39 <= code <= 42 || code == 45 || code == 46 || code == 95 || code == 126
  }

  /** Just these characters are not escaped. */
  lemma KeptExactly(c: char)
    ensures EncodeChar(c) == [c] <==> Kept(c as int)
  {
    if !Unreserved(c) { assert EncodeChar(c)[0] == '%' && c as int < 0x80 ==> |EncodeChar(c)| >= 3; }
  }

  predicate IsByte(b: int) { 0 <= b < 256 }

  predicate AreBytes(bs: seq<int>) { forall i | 0 <= i < |bs| :: IsByte(bs[i]) }

  function Utf8(c: char): (bs: seq<int>)
    ensures AreBytes(bs)
  {
    var n := c as int;
    if n < 0x80 then [n]
    else if n < 0x800 then [0xC0 + n / 64, 0x80 + n % 64]
    else if n < 0x10000 then [0xE0 + n / 4096, 0x80 + n / 64 % 64, 0x80 + n % 64]
    else [0xF0 + n / 262144, 0x80 + n / 4096 % 64, 0x80 + n / 64 % 64, 0x80 + n % 64]
  }

  function HexDigit(d: int): char
    requires 0 <= d < 16
  {
    if d < 10 then '0' + d as char else 'A' + (d - 10) as char
  }

  function EscapeByte(b: int): string
    requires IsByte(b)
  {
    ['%', HexDigit(b / 16), HexDigit(b % 16)]
  }

  function Escape(bs: seq<int>): string
    requires AreBytes(bs)
  {
    if bs == [] then "" else EscapeByte(bs[0]) + Escape(bs[1..])
  }

  function EncodeChar(c: char): string { if Unreserved(c) then [c] else Escape(Utf8(c)) }

  function Encode(s: string): string { if s == "" then "" else EncodeChar(s[0]) + Encode(s[1..]) }

  // ---------------------------------------------------------------- decoding

  function HexValue(c: char): int { if 'A' <= c <= 'F' then c as int - 'A' as int + 10 else c as int - '0' as int }

  /** The bytes an escaped text stands for. */
  function Unescape(t: string): seq<int> {
    if t == "" then []
    else if t[0] == '%' && |t| >= 3 then [16 * HexValue(t[1]) + HexValue(t[2])] + Unescape(t[3..])
    else [t[0] as int] + Unescape(t[1..])
  }

  /** The length of a UTF-8 sequence, by its first byte. */
  function Width(b: int): nat { if b < 0x80 then 1 else if b < 0xE0 then 2 else if b < 0xF0 then 3 else 4 }

  /** The code point of the sequence that `bs` begins with. */
  function FirstPoint(bs: seq<int>): int
    requires bs != []
  {
    if |bs| < Width(bs[0]) || Width(bs[0]) == 1 then bs[0]
    else if Width(bs[0]) == 2 then (bs[0] - 0xC0) * 64 + bs[1] - 0x80
    else if Width(bs[0]) == 3 then (bs[0] - 0xE0) * 4096 + (bs[1] - 0x80) * 64 + bs[2] - 0x80
    else (bs[0] - 0xF0) * 262144 + (bs[1] - 0x80) * 4096 + (bs[2] - 0x80) * 64 + bs[3] - 0x80
  }

  function FromUtf8(bs: seq<int>): seq<int>
    decreases |bs|
  {
    if bs == [] then []
    else [FirstPoint(bs)] + FromUtf8(if |bs| < Width(bs[0]) then [] else bs[Width(bs[0])..])
  }

  function Decode(t: string): seq<int> { FromUtf8(Unescape(t)) }

  function Points(s: string): seq<int> { seq(|s|, i requires 0 <= i < |s| => s[i] as int) }

  // ---------------------------------------------------------------- the round trip

  lemma {:induction false} UnescapeAll(bs: seq<int>, rest: string)
    requires AreBytes(bs)
    ensures Unescape(Escape(bs) + rest) == bs + Unescape(rest)
  {
    if bs == [] {
      assert Escape(bs) + rest == rest;
    } else {
      assert Escape(bs) + rest == EscapeByte(bs[0]) + (Escape(bs[1..]) + rest);
      assert (EscapeByte(bs[0]) + (Escape(bs[1..]) + rest))[3..] == Escape(bs[1..]) + rest;
      UnescapeAll(bs[1..], rest);
      assert [bs[0]] + (bs[1..] + Unescape(rest)) == bs + Unescape(rest);
    }
  }

  lemma UnescapeChar(c: char, rest: string)
    ensures Unescape(EncodeChar(c) + rest) == Utf8(c) + Unescape(rest)
  {
    if Unreserved(c) {
      assert ([c] + rest)[1..] == rest;
    } else {
      UnescapeAll(Utf8(c), rest);
    }
  }

  lemma FirstChar(c: char, rest: seq<int>)
    ensures FromUtf8(Utf8(c) + rest) == [c as int] + FromUtf8(rest)
  {
    var n := c as int;
    var bs := Utf8(c) + rest;
    assert n / 64 / 64 == n / 4096 && n / 4096 / 64 == n / 262144;
    assert Width(bs[0]) == |Utf8(c)|;
    assert FirstPoint(bs) == n;
    assert bs[|Utf8(c)|..] == rest;
  }

  /** Decoding gives back every code point. */
  lemma {:induction false} RoundTrip(s: string)
    ensures Decode(Encode(s)) == Points(s)
  {
    if s != "" {
      UnescapeChar(s[0], Encode(s[1..]));
      FirstChar(s[0], Unescape(Encode(s[1..])));
      RoundTrip(s[1..]);
      assert Points(s) == [s[0] as int] + Points(s[1..]);
    }
  }

  /** Different strings have different encodings. */
  lemma Injective(s: string, t: string)
    requires Encode(s) == Encode(t)
    ensures s == t
  {
    RoundTrip(s);
    RoundTrip(t);
    assert |Points(s)| == |Points(t)|;
    forall i | 0 <= i < |s| ensures s[i] == t[i] { assert Points(s)[i] == Points(t)[i]; }
  }

  // ---------------------------------------------------------------- the alphabet

  predicate Plain(c: char) { Unreserved(c) || c == '%' }

  predicate AllPlain(t: string) { forall i | 0 <= i < |t| :: Plain(t[i]) }

  lemma {:induction false} EscapePlain(bs: seq<int>)
    requires AreBytes(bs)
    ensures AllPlain(Escape(bs))
  {
    if bs != [] { EscapePlain(bs[1..]); }
  }

  /** Nothing but unreserved characters and `%` comes out: no colon, no equals sign. */
  lemma {:induction false} EncodePlain(s: string)
    ensures AllPlain(Encode(s))
  {
    if s != "" {
      EncodePlain(s[1..]);
      EscapePlain(Utf8(s[0]));
    }
  }

  /** A string of unreserved characters is its own encoding. */
  lemma {:induction false} EncodeUnreserved(s: string)
    requires forall i | 0 <= i < |s| :: Unreserved(s[i])
    ensures Encode(s) == s
  {
    if s != "" { EncodeUnreserved(s[1..]); }
  }
}
