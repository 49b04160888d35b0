/** Base64 as in section 4 of RFC 4648, the way Node's `Buffer` writes it
    (`toString('base64')`, padded with `=`) and reads it (`Buffer.from(s,
    'base64')`). Reading is lenient: characters outside the alphabet are
    skipped, the URL-safe letters `-` and `_` are accepted for `+` and `/`,
    decoding stops at the first `=`, and a trailing group of two or three
    characters yields one or two bytes. */
module Base64 {
  import opened Utf8

  type sextet = v: int | 0 <= v < 64

  /** The character of the standard alphabet for a six-bit value. */
  function SextetChar(v: sextet): char {
    if v < 26 then ('A' as int + v) as char
    else if v < 52 then ('a' as int + (v - 26)) as char
    else if v < 62 then ('0' as int + (v - 52)) as char
    else if v == 62 then '+'
    else '/'
  }

  /** The value of an alphabet character (either alphabet), or -1. */
  function SextetValue(c: char): int {
    if 'A' <= c <= 'Z' then c as int - 'A' as int
    else if 'a' <= c <= 'z' then c as int - 'a' as int + 26
    else if '0' <= c <= '9' then c as int - '0' as int + 52
    else if c == '+' || c == '-' then 62
    else if c == '/' || c == '_' then 63
    else -1
  }

  lemma SextetValueOfChar(v: sextet)
    ensures SextetValue(SextetChar(v)) == v
    ensures SextetChar(v) != '='
  {
  }

  /** `Buffer.from(bytes).toString('base64')`: three bytes become four
      characters; a final one or two bytes are padded with `==` or `=`. */
  function Encode(b: seq<byte>): (s: string)
    ensures |s| % 4 == 0
    decreases |b|
  {
    if |b| == 0 then ""
    else if |b| == 1 then
      [SextetChar(b[0] / 4), SextetChar((b[0] % 4) * 16)] + "=="
    else if |b| == 2 then
      [SextetChar(b[0] / 4), SextetChar((b[0] % 4) * 16 + b[1] / 16), SextetChar((b[1] % 16) * 4)] + "="
    else
      [SextetChar(b[0] / 4), SextetChar((b[0] % 4) * 16 + b[1] / 16),
       SextetChar((b[1] % 16) * 4 + b[2] / 64), SextetChar(b[2] % 64)]
      + Encode(b[3..])
  }

  /** The six-bit values read from `s`: skips characters outside the
      alphabet and stops at the first `=`. */
  function Sextets(s: string): seq<sextet>
    decreases |s|
  {
    if |s| == 0 || s[0] == '=' then []
    else
      var v := SextetValue(s[0]);
      if v < 0 then Sextets(s[1..]) else [v] + Sextets(s[1..])
  }

  /** Regroups six-bit values into bytes, dropping the bits of an incomplete byte. */
  function SextetBytes(v: seq<sextet>): seq<byte>
    decreases |v|
  {
    if |v| < 2 then []
    else
      var x0: int, x1: int := v[0], v[1];
      if |v| == 2 then [x0 * 4 + x1 / 16]
      else
        var x2: int := v[2];
        if |v| == 3 then [x0 * 4 + x1 / 16, (x1 % 16) * 16 + x2 / 4]
        else
          var x3: int := v[3];
          [x0 * 4 + x1 / 16, (x1 % 16) * 16 + x2 / 4, (x2 % 4) * 64 + x3] + SextetBytes(v[4..])
  }

  /** `Buffer.from(s, 'base64')` */
  function Decode(s: string): seq<byte> {
    SextetBytes(Sextets(s))
  }

  /** An alphabet character in front of `rest` contributes its value. */
  lemma SextetsCons(v: sextet, rest: string)
    ensures Sextets([SextetChar(v)] + rest) == [v] + Sextets(rest)
  {
    SextetValueOfChar(v);
    assert ([SextetChar(v)] + rest)[1..] == rest;
  }

  /** Four alphabet characters in front of `rest` contribute their four values. */
  lemma SextetsOfGroup(v0: sextet, v1: sextet, v2: sextet, v3: sextet, rest: string)
    ensures Sextets([SextetChar(v0), SextetChar(v1), SextetChar(v2), SextetChar(v3)] + rest)
         == [v0, v1, v2, v3] + Sextets(rest)
  {
    SextetsCons(v3, rest);
    SextetsCons(v2, [SextetChar(v3)] + rest);
    assert [SextetChar(v2)] + ([SextetChar(v3)] + rest) == [SextetChar(v2), SextetChar(v3)] + rest;
    SextetsCons(v1, [SextetChar(v2), SextetChar(v3)] + rest);
    assert [SextetChar(v1)] + ([SextetChar(v2), SextetChar(v3)] + rest)
        == [SextetChar(v1), SextetChar(v2), SextetChar(v3)] + rest;
    SextetsCons(v0, [SextetChar(v1), SextetChar(v2), SextetChar(v3)] + rest);
    assert [SextetChar(v0)] + ([SextetChar(v1), SextetChar(v2), SextetChar(v3)] + rest)
        == [SextetChar(v0), SextetChar(v1), SextetChar(v2), SextetChar(v3)] + rest;
  }

  /** The arithmetic of one group: the four values cut from three bytes
      regroup into those bytes. */
  lemma GroupArithmetic(x0: byte, x1: byte, x2: byte)
    ensures var v0, v1 := x0 / 4, (x0 % 4) * 16 + x1 / 16;
            var v2, v3 := (x1 % 16) * 4 + x2 / 64, x2 % 64;
            && v0 * 4 + v1 / 16 == x0
            && (v1 % 16) * 16 + v2 / 4 == x1
            && (v2 % 4) * 64 + v3 == x2
  {
    var v1 := (x0 % 4) * 16 + x1 / 16;
    assert v1 / 16 == x0 % 4 && v1 % 16 == x1 / 16;
    var v2 := (x1 % 16) * 4 + x2 / 64;
    assert v2 / 4 == x1 % 16 && v2 % 4 == x2 / 64;
  }

  lemma DecodeEncodeOne(b: seq<byte>)
    requires |b| == 1
    ensures Decode(Encode(b)) == b
  {
    var x0: int := b[0];
    var v0, v1 := x0 / 4, (x0 % 4) * 16;
    var e := Encode(b);
    assert e == [SextetChar(v0)] + ([SextetChar(v1)] + "==");
    SextetsCons(v1, "==");
    SextetsCons(v0, [SextetChar(v1)] + "==");
    assert Sextets(e) == [v0, v1];
    OneByteArithmetic(x0);
  }

  lemma OneByteArithmetic(x0: byte)
    ensures SextetBytes([x0 / 4, (x0 % 4) * 16]) == [x0]
  {
    assert ((x0 % 4) * 16) / 16 == x0 % 4;
  }

  lemma DecodeEncodeTwo(b: seq<byte>)
    requires |b| == 2
    ensures Decode(Encode(b)) == b
  {
    var x0: int, x1: int := b[0], b[1];
    var v0, v1, v2 := x0 / 4, (x0 % 4) * 16 + x1 / 16, (x1 % 16) * 4;
    var e := Encode(b);
    assert e == [SextetChar(v0)] + ([SextetChar(v1)] + ([SextetChar(v2)] + "="));
    SextetsCons(v2, "=");
    SextetsCons(v1, [SextetChar(v2)] + "=");
    SextetsCons(v0, [SextetChar(v1)] + ([SextetChar(v2)] + "="));
    assert Sextets(e) == [v0, v1, v2];
    TwoByteArithmetic(x0, x1);
  }

  lemma TwoByteArithmetic(x0: byte, x1: byte)
    ensures var v0, v1, v2 := x0 / 4, (x0 % 4) * 16 + x1 / 16, (x1 % 16) * 4;
            SextetBytes([v0, v1, v2]) == [x0, x1]
  {
    var v0, v1, v2 := x0 / 4, (x0 % 4) * 16 + x1 / 16, (x1 % 16) * 4;
    assert v1 / 16 == x0 % 4 && v1 % 16 == x1 / 16 && v2 / 4 == x1 % 16;
  }

  /** A full group of four values in front of `more` yields its three bytes. */
  lemma SextetBytesOfGroup(x0: byte, x1: byte, x2: byte, more: seq<sextet>)
    ensures var v0, v1 := x0 / 4, (x0 % 4) * 16 + x1 / 16;
            var v2, v3 := (x1 % 16) * 4 + x2 / 64, x2 % 64;
            SextetBytes([v0, v1, v2, v3] + more) == [x0, x1, x2] + SextetBytes(more)
  {
    var v0, v1 := x0 / 4, (x0 % 4) * 16 + x1 / 16;
    var v2, v3 := (x1 % 16) * 4 + x2 / 64, x2 % 64;
    GroupArithmetic(x0, x1, x2);
    var v := [v0, v1, v2, v3] + more;
    assert v[4..] == more;
  }

  /** Decoding recovers every byte sequence from its encoding. */
  lemma {:induction false} DecodeEncode(b: seq<byte>)
    ensures Decode(Encode(b)) == b
    decreases |b|
  {
    if |b| == 1 {
      DecodeEncodeOne(b);
    } else if |b| == 2 {
      DecodeEncodeTwo(b);
    } else if |b| >= 3 {
      var v0, v1 := b[0] / 4, (b[0] % 4) * 16 + b[1] / 16;
      var v2, v3 := (b[1] % 16) * 4 + b[2] / 64, b[2] % 64;
      var tail := Encode(b[3..]);
      assert Encode(b) == [SextetChar(v0), SextetChar(v1), SextetChar(v2), SextetChar(v3)] + tail;
      SextetsOfGroup(v0, v1, v2, v3, tail);
      SextetBytesOfGroup(b[0], b[1], b[2], Sextets(tail));
      DecodeEncode(b[3..]);
      assert b == [b[0], b[1], b[2]] + b[3..];
    }
  }

  /** The file content path: text encoded as UTF-8 and then Base64 reads
      back as the same text. */
  lemma TextRoundTrip(s: string)
    ensures Utf8.Decode(Decode(Encode(Utf8.Encode(s)))) == s
  {
    DecodeEncode(Utf8.Encode(s));
    Utf8.DecodeEncode(s);
  }
}
