/** `encodeURIComponent` (ECMA-262, URI Handling Functions) and, as its
    partner, the percent-decoding a server applies to one path segment
    (section 2.1 of RFC 3986: each `%XX` is one octet; the octets are UTF-8). */
module UriEncoding {
  import opened Results
  import Utf8

  /** The characters `encodeURIComponent` leaves as they are. */
  predicate Unreserved(c: char) {
    || 'A' <= c <= 'Z'
    || 'a' <= c <= 'z'
    || '0' <= c <= '9'
    || c in "-_.!~*'()"
  }

  function HexDigit(d: int): char
    requires 0 <= d < 16
  {
    if d < 10 then ('0' as int + d) as char else ('A' as int + (d - 10)) as char
  }

  /** The value of a hexadecimal digit of either case, or -1. */
  function HexValue(c: char): int {
    if '0' <= c <= '9' then c as int - '0' as int
    else if 'A' <= c <= 'F' then c as int - 'A' as int + 10
    else if 'a' <= c <= 'f' then c as int - 'a' as int + 10
    else -1
  }

  /** `%XX` with upper-case hex digits, for each byte. */
  function PercentBytes(bs: seq<Utf8.byte>): string
    decreases |bs|
  {
    if |bs| == 0 then ""
    else ['%', HexDigit(bs[0] / 16), HexDigit(bs[0] % 16)] + PercentBytes(bs[1..])
  }

  /** What one character of the input becomes. */
  function EncodeChar(c: char): string {
    if Unreserved(c) then [c] else PercentBytes(Utf8.EncodeChar(c))
  }

  /** `encodeURIComponent(s)` */
  function EncodeComponent(s: string): string
    decreases |s|
  {
    if |s| == 0 then "" else EncodeChar(s[0]) + EncodeComponent(s[1..])
  }

  function Prepend(bs: seq<Utf8.byte>, rest: Option<seq<Utf8.byte>>): Option<seq<Utf8.byte>> {
    match rest
    case None => None
    case Some(tail) => Some(bs + tail)
  }

  /** The octets a path segment stands for: `%XX` is one octet, any other
      character its UTF-8 bytes; a `%` without two hex digits is malformed. */
  function Unescape(s: string): Option<seq<Utf8.byte>>
    decreases |s|
  {
    if |s| == 0 then Some([])
    else if s[0] != '%' then Prepend(Utf8.EncodeChar(s[0]), Unescape(s[1..]))
    else if |s| < 3 || HexValue(s[1]) < 0 || HexValue(s[2]) < 0 then None
    else Prepend([HexValue(s[1]) * 16 + HexValue(s[2])], Unescape(s[3..]))
  }

  /** Percent-decoding of a segment followed by strict UTF-8 decoding. */
  function DecodeComponent(s: string): Option<string> {
    match Unescape(s)
    case None => None
    case Some(bs) => Utf8.DecodeStrict(bs)
  }

  /** Every character of the output is unreserved, `%` or a hex digit, so
      the result never contains `/`, `?` or `#` and is one path segment. */
  lemma {:induction false} EncodedCharacters(s: string)
    ensures forall i :: 0 <= i < |EncodeComponent(s)| ==>
              Unreserved(EncodeComponent(s)[i]) || EncodeComponent(s)[i] == '%'
    ensures '/' !in EncodeComponent(s)
    decreases |s|
  {
    if |s| > 0 {
      PercentCharacters(Utf8.EncodeChar(s[0]));
      EncodedCharacters(s[1..]);
    }
  }

  lemma {:induction false} PercentCharacters(bs: seq<Utf8.byte>)
    ensures forall i :: 0 <= i < |PercentBytes(bs)| ==>
              Unreserved(PercentBytes(bs)[i]) || PercentBytes(bs)[i] == '%'
    decreases |bs|
  {
    if |bs| > 0 {
      PercentCharacters(bs[1..]);
    }
  }

  /** One `%XX` triple unescapes to its byte. */
  lemma UnescapeTriple(b: Utf8.byte, rest: string)
    ensures Unescape(['%', HexDigit(b / 16), HexDigit(b % 16)] + rest) == Prepend([b], Unescape(rest))
  {
    var s := ['%', HexDigit(b / 16), HexDigit(b % 16)] + rest;
    assert s[3..] == rest;
    assert HexValue(HexDigit(b / 16)) * 16 + HexValue(HexDigit(b % 16)) == b;
  }

  lemma PrependTwice(a: seq<Utf8.byte>, b: seq<Utf8.byte>, rest: Option<seq<Utf8.byte>>)
    ensures Prepend(a, Prepend(b, rest)) == Prepend(a + b, rest)
  {
    if rest.Some? {
      assert a + (b + rest.value) == (a + b) + rest.value;
    }
  }

  lemma {:induction false} UnescapePercent(bs: seq<Utf8.byte>, rest: string)
    ensures Unescape(PercentBytes(bs) + rest) == Prepend(bs, Unescape(rest))
    decreases |bs|
  {
    if |bs| == 0 {
      assert PercentBytes(bs) + rest == rest;
      assert Unescape(rest).Some? ==> bs + Unescape(rest).value == Unescape(rest).value;
    } else {
      var tailText := PercentBytes(bs[1..]) + rest;
      assert PercentBytes(bs) + rest == ['%', HexDigit(bs[0] / 16), HexDigit(bs[0] % 16)] + tailText;
      UnescapeTriple(bs[0], tailText);
      UnescapePercent(bs[1..], rest);
      PrependTwice([bs[0]], bs[1..], Unescape(rest));
      assert [bs[0]] + bs[1..] == bs;
    }
  }

  lemma UnescapeEncodedChar(c: char, rest: string)
    ensures Unescape(EncodeChar(c) + rest) == Prepend(Utf8.EncodeChar(c), Unescape(rest))
  {
    if Unreserved(c) {
      assert ([c] + rest)[1..] == rest;
    } else {
      UnescapePercent(Utf8.EncodeChar(c), rest);
    }
  }

  /** Unescaping an encoded string yields the UTF-8 bytes of the original. */
  lemma {:induction false} UnescapeEncode(s: string)
    ensures Unescape(EncodeComponent(s)) == Some(Utf8.Encode(s))
    decreases |s|
  {
    if |s| > 0 {
      UnescapeEncodedChar(s[0], EncodeComponent(s[1..]));
      UnescapeEncode(s[1..]);
    }
  }

  /** Decoding an encoded component recovers the original string. */
  lemma DecodeEncode(s: string)
    ensures DecodeComponent(EncodeComponent(s)) == Some(s)
  {
    UnescapeEncode(s);
    Utf8.DecodeStrictIsInverse(Utf8.Encode(s), s);
  }

  /** Encoding is injective: distinct strings give distinct segments. */
  lemma EncodeInjective(s: string, t: string)
    ensures EncodeComponent(s) == EncodeComponent(t) ==> s == t
  {
    DecodeEncode(s);
    DecodeEncode(t);
  }
}
