/** Base 64 encoding as section 4 of RFC 4648 defines it, which
    `base64.b64encode(...).decode('utf-8')` produces for the audio field of
    the process-message response. `Decode` is the reverse mapping; it is
    here as the partner of `Encode`, not as a model of any code. */
module Base64 {
  import opened Python

  /** Table 1 of RFC 4648: values 0..25 are A..Z, 26..51 a..z, 52..61 0..9, 62 '+', 63 '/'. */
  function CharOf(v: nat): (c: char)
    requires v < 64
    ensures c != '='
  {
    if v < 26 then (('A' as int) + v) as char
    else if v < 52 then (('a' as int) + v - 26) as char
    else if v < 62 then (('0' as int) + v - 52) as char
    else if v == 62 then '+'
    else '/'
  }

  predicate IsAlphabetChar(c: char)
  {
    ('A' <= c <= 'Z') || ('a' <= c <= 'z') || ('0' <= c <= '9') || c == '+' || c == '/'
  }

  /** The value of an alphabet character (0 for any other character). */
  function ValueOf(c: char): (v: nat)
    ensures v < 64
  {
    if 'A' <= c <= 'Z' then c as int - 'A' as int
    else if 'a' <= c <= 'z' then c as int - 'a' as int + 26
    else if '0' <= c <= '9' then c as int - '0' as int + 52
    else if c == '+' then 62
    else if c == '/' then 63
    else 0
  }

  lemma ValueOfCharOf(v: nat)
    requires v < 64
    ensures ValueOf(CharOf(v)) == v && IsAlphabetChar(CharOf(v))
  {
  }

  /** Three bytes give four characters, six bits each, most significant first. */
  function EncodeGroup(a: byte, b: byte, c: byte): (s: string)
    ensures |s| == 4
  {
    [CharOf(a / 4), CharOf((a % 4) * 16 + b / 16), CharOf((b % 16) * 4 + c / 64), CharOf(c % 64)]
  }

  /** The encoding: full groups, then one final group padded with '='. */
  function Encode(data: seq<byte>): (s: string)
    ensures |s| == 4 * ((|data| + 2) / 3)
    decreases |data|
  {
    if |data| == 0 then ""
    else if |data| == 1 then
      [CharOf(data[0] / 4), CharOf((data[0] % 4) * 16), '=', '=']
    else if |data| == 2 then
      [CharOf(data[0] / 4), CharOf((data[0] % 4) * 16 + data[1] / 16), CharOf((data[1] % 16) * 4), '=']
    else
      EncodeGroup(data[0], data[1], data[2]) + Encode(data[3..])
  }

  /** Four characters back to up to three bytes; '=' in the third or fourth
      place ends the data. */
  function Decode(s: string): seq<byte>
    decreases |s|
  {
    if |s| < 4 then []
    else
      var a, b, c, d := ValueOf(s[0]), ValueOf(s[1]), ValueOf(s[2]), ValueOf(s[3]);
      var x: byte := a * 4 + b / 16;
      if s[2] == '=' then [x]
      else
        var y: byte := (b % 16) * 16 + c / 4;
        if s[3] == '=' then [x, y]
        else [x, y, (c % 4) * 64 + d] + Decode(s[4..])
  }

  lemma GroupRoundTrip(a: byte, b: byte, c: byte)
    ensures var i0, i1, i2, i3 := a / 4, (a % 4) * 16 + b / 16, (b % 16) * 4 + c / 64, c % 64;
            i0 * 4 + i1 / 16 == a && (i1 % 16) * 16 + i2 / 4 == b && (i2 % 4) * 64 + i3 == c
  {
    var i1, i2 := (a % 4) * 16 + b / 16, (b % 16) * 4 + c / 64;
    assert i1 / 16 == a % 4 && i1 % 16 == b / 16;
    assert i2 / 4 == b % 16 && i2 % 4 == c / 64;
  }

  /** Decoding a full group followed by more text. */
  lemma DecodeGroup(a: byte, b: byte, c: byte, rest: string)
    ensures Decode(EncodeGroup(a, b, c) + rest) == [a, b, c] + Decode(rest)
  {
    var s := EncodeGroup(a, b, c) + rest;
    ValueOfCharOf(a / 4);
    ValueOfCharOf((a % 4) * 16 + b / 16);
    ValueOfCharOf((b % 16) * 4 + c / 64);
    ValueOfCharOf(c % 64);
    GroupRoundTrip(a, b, c);
    assert s[4..] == rest;
    assert s[2] != '=' && s[3] != '=';
  }

  /** Decoding the padded final group of one byte. */
  lemma DecodeOne(a: byte)
    ensures Decode(Encode([a])) == [a]
  {
    var s := Encode([a]);
    ValueOfCharOf(a / 4);
    ValueOfCharOf((a % 4) * 16);
    assert ValueOf(s[0]) == a / 4 && ValueOf(s[1]) == (a % 4) * 16;
    assert ((a % 4) * 16) / 16 == a % 4;
    assert s[2] == '=';
  }

  /** Decoding the padded final group of two bytes. */
  lemma DecodeTwo(a: byte, b: byte)
    ensures Decode(Encode([a, b])) == [a, b]
  {
    var s := Encode([a, b]);
    ValueOfCharOf(a / 4);
    ValueOfCharOf((a % 4) * 16 + b / 16);
    ValueOfCharOf((b % 16) * 4);
    GroupRoundTrip(a, b, 0);
    assert ValueOf(s[0]) == a / 4 && ValueOf(s[1]) == (a % 4) * 16 + b / 16;
    assert ValueOf(s[2]) == (b % 16) * 4;
    assert s[2] != '=' && s[3] == '=';
  }

  /** Decoding the padded encoding of one or two bytes. */
  lemma DecodeShort(data: seq<byte>)
    requires 1 <= |data| <= 2
    ensures Decode(Encode(data)) == data
  {
    if |data| == 1 {
      DecodeOne(data[0]);
      assert data == [data[0]];
    } else {
      DecodeTwo(data[0], data[1]);
      assert data == [data[0], data[1]];
    }
  }

  /** Three or more bytes encode as a full group followed by the rest. */
  lemma EncodeFullGroup(data: seq<byte>)
    requires |data| >= 3
    ensures Encode(data) == EncodeGroup(data[0], data[1], data[2]) + Encode(data[3..])
  {
  }

  /** Decoding an encoding gives back the bytes. */
  lemma {:induction false} DecodeEncode(data: seq<byte>)
    ensures Decode(Encode(data)) == data
    decreases |data|
  {
    if 1 <= |data| <= 2 {
      DecodeShort(data);
    } else if |data| >= 3 {
      var rest := data[3..];
      EncodeFullGroup(data);
      DecodeGroup(data[0], data[1], data[2], Encode(rest));
      DecodeEncode(rest);
      assert data == [data[0], data[1], data[2]] + rest;
    }
  }

  /** Characters from the alphabet, with '=' padding at most in the last two places. */
  predicate Canonical(s: string)
  {
    forall i :: 0 <= i < |s| ==> IsAlphabetChar(s[i]) || (s[i] == '=' && i >= |s| - 2)
  }

  /** A full group in front of a canonical text keeps it canonical. */
  lemma CanonicalGroup(a: byte, b: byte, c: byte, rest: string)
    requires Canonical(rest)
    ensures Canonical(EncodeGroup(a, b, c) + rest)
  {
    ValueOfCharOf(a / 4);
    ValueOfCharOf((a % 4) * 16 + b / 16);
    ValueOfCharOf((b % 16) * 4 + c / 64);
    ValueOfCharOf(c % 64);
    var g := EncodeGroup(a, b, c);
    var s := g + rest;
    assert IsAlphabetChar(g[0]) && IsAlphabetChar(g[1]) && IsAlphabetChar(g[2]) && IsAlphabetChar(g[3]);
    forall i | 0 <= i < |s|
      ensures IsAlphabetChar(s[i]) || (s[i] == '=' && i >= |s| - 2)
    {
      if i >= 4 {
        assert s[i] == rest[i - 4];
      } else {
        assert s[i] == g[i];
      }
    }
  }

  /** Every character of an encoding is from the alphabet or is padding, and
      padding only occurs in the last two places. */
  lemma {:induction false} EncodeAlphabet(data: seq<byte>)
    ensures Canonical(Encode(data))
    decreases |data|
  {
    if |data| == 1 {
      ValueOfCharOf(data[0] / 4);
      ValueOfCharOf((data[0] % 4) * 16);
    } else if |data| == 2 {
      ValueOfCharOf(data[0] / 4);
      ValueOfCharOf((data[0] % 4) * 16 + data[1] / 16);
      ValueOfCharOf((data[1] % 16) * 4);
    } else if |data| >= 3 {
      EncodeFullGroup(data);
      EncodeAlphabet(data[3..]);
      CanonicalGroup(data[0], data[1], data[2], Encode(data[3..]));
    }
  }

  /** The pad bits are zero (section 3.5 of RFC 4648): before "==" the last
      character carries four zero bits, before a single "=" two. */
  predicate PadBitsZero(s: string)
  {
    |s| >= 4 ==>
      (s[|s| - 2] == '=' ==> ValueOf(s[|s| - 3]) % 16 == 0) &&
      (s[|s| - 1] == '=' && s[|s| - 2] != '=' ==> ValueOf(s[|s| - 2]) % 4 == 0)
  }

  /** The padded encoding of one byte has four zero pad bits before "==". */
  lemma PadBitsZeroOne(a: byte)
    ensures PadBitsZero([CharOf(a / 4), CharOf((a % 4) * 16), '=', '='])
  {
    ValueOfCharOf((a % 4) * 16);
  }

  /** The padded encoding of two bytes has two zero pad bits before "=". */
  lemma PadBitsZeroTwo(a: byte, b: byte)
    ensures PadBitsZero([CharOf(a / 4), CharOf((a % 4) * 16 + b / 16), CharOf((b % 16) * 4), '='])
  {
    ValueOfCharOf((b % 16) * 4);
  }

  /** The padded encodings of one and of two bytes have zero pad bits. */
  lemma PadBitsZeroShort(data: seq<byte>)
    requires 1 <= |data| <= 2
    ensures PadBitsZero(Encode(data))
  {
    if |data| == 1 {
      PadBitsZeroOne(data[0]);
    } else {
      PadBitsZeroTwo(data[0], data[1]);
    }
  }

  /** A full group in front keeps the pad bits of what follows. */
  lemma PadBitsZeroGroup(g: string, t: string)
    requires |g| == 4 && |t| >= 4 && PadBitsZero(t)
    ensures PadBitsZero(g + t)
  {
    var s := g + t;
    assert s[|s| - 3] == t[|t| - 3] && s[|s| - 2] == t[|t| - 2] && s[|s| - 1] == t[|t| - 1];
  }

  /** Every encoding has zero pad bits. */
  lemma {:induction false} EncodeZeroPadBits(data: seq<byte>)
    ensures PadBitsZero(Encode(data))
    decreases |data|
  {
    if 1 <= |data| <= 2 {
      PadBitsZeroShort(data);
    } else if |data| > 3 {
      EncodeFullGroup(data);
      EncodeZeroPadBits(data[3..]);
      PadBitsZeroGroup(EncodeGroup(data[0], data[1], data[2]), Encode(data[3..]));
    } else if |data| == 3 {
      EncodeFullGroup(data);
      assert Encode(data[3..]) == "";
      assert Encode(data) == EncodeGroup(data[0], data[1], data[2]);
      ValueOfCharOf((data[1] % 16) * 4 + data[2] / 64);
      ValueOfCharOf(data[2] % 64);
    }
  }

  /** The bytes 01 02 encode as "AQI=". */
  lemma EncodeExample()
    ensures Encode([1, 2]) == "AQI="
  {
  }
}
