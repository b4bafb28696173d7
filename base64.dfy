/** The base64 encoding of section 4 of RFC 4648 (the alphabet with `+` and `/`,
    `=` padding), which Python's `base64.b64encode` produces. */
module Base64 {
  import opened Wrappers
  import opened Utf8

  /** The 64-character alphabet of Table 1 of RFC 4648. */
  function CharOf(v: nat): (c: char)
    requires v < 64
    ensures ValueOf(c) == Some(v)
  {
    if v < 26 then ('A' as int + v) as char
    else if v < 52 then ('a' as int + (v - 26)) as char
    else if v < 62 then ('0' as int + (v - 52)) as char
    else if v == 62 then '+'
    else '/'
  }

  /** Inverse of the alphabet; `None` for a character outside it (including `=`). */
  function ValueOf(c: char): (r: Option<nat>)
    ensures r.Some? ==> r.value < 64
  {
    if 'A' <= c <= 'Z' then Some(c as int - 'A' as int)
    else if 'a' <= c <= 'z' then Some(c as int - 'a' as int + 26)
    else if '0' <= c <= '9' then Some(c as int - '0' as int + 52)
    else if c == '+' then Some(62)
    else if c == '/' then Some(63)
    else None
  }

  predicate InAlphabet(c: char) { ValueOf(c).Some? }

  /** Four characters for three bytes: each character carries six bits. */
  function EncodeGroup(b0: byte, b1: byte, b2: byte): string {
    [CharOf(b0 / 4), CharOf((b0 % 4) * 16 + b1 / 16), CharOf((b1 % 16) * 4 + b2 / 64), CharOf(b2 % 64)]
  }

  /** Python `base64.b64encode(b).decode()`. */
  function Encode(b: seq<byte>): (r: string)
    ensures |r| == 4 * ((|b| + 2) / 3)
    ensures forall i :: 0 <= i < |r| ==> InAlphabet(r[i]) || r[i] == '='
  {
    if |b| == 0 then []
    else if |b| == 1 then EncodeOne(b[0])
    else if |b| == 2 then EncodeTwo(b[0], b[1])
    else
      assert (|b| + 2) / 3 == (|b[3..]| + 2) / 3 + 1;
      EncodeGroup(b[0], b[1], b[2]) + Encode(b[3..])
  }

  /** Strict decoding of one four-character group, padding allowed only in the
      last group and only with zero bits left over, as RFC 4648 puts it. */
  function DecodeGroup(g: string, last: bool): Option<seq<byte>>
    requires |g| == 4
  {
    if !InAlphabet(g[0]) || !InAlphabet(g[1]) then None
    else
      var v0, v1 := ValueOf(g[0]).value, ValueOf(g[1]).value;
      if last && g[2] == '=' && g[3] == '=' then
        if v1 % 16 != 0 then None else Some([v0 * 4 + v1 / 16])
      else if !InAlphabet(g[2]) then None
      else
        var v2 := ValueOf(g[2]).value;
        if last && g[3] == '=' then
          if v2 % 4 != 0 then None else Some([v0 * 4 + v1 / 16, (v1 % 16) * 16 + v2 / 4])
        else if !InAlphabet(g[3]) then None
        else
          var v3 := ValueOf(g[3]).value;
          Some([v0 * 4 + v1 / 16, (v1 % 16) * 16 + v2 / 4, (v2 % 4) * 64 + v3])
  }

  /** Reference decoder for the encoding of section 4 of RFC 4648. */
  function Decode(s: string): Option<seq<byte>>
    decreases |s|
  {
    if s == [] then Some([])
    else if |s| < 4 then None
    else
      match DecodeGroup(s[..4], |s| == 4)
      case None => None
      case Some(g) =>
        match Decode(s[4..])
        case None => None
        case Some(rest) => Some(g + rest)
  }

  lemma Split4(hi: nat, lo: nat)
    requires lo < 4
    ensures (hi * 4 + lo) / 4 == hi && (hi * 4 + lo) % 4 == lo
  {
  }

  lemma Split16(hi: nat, lo: nat)
    requires lo < 16
    ensures (hi * 16 + lo) / 16 == hi && (hi * 16 + lo) % 16 == lo
  {
  }

  lemma ByteParts(b: byte)
    ensures b == (b / 4) * 4 + b % 4 && b == (b / 16) * 16 + b % 16 && b == (b / 64) * 64 + b % 64
    ensures b / 4 < 64 && b / 16 < 16 && b / 64 < 4
  {
  }

  /** A group of four alphabet characters decodes to the three bytes its 24 bits spell. */
  lemma DecodeFullValues(x0: nat, x1: nat, x2: nat, x3: nat, last: bool)
    requires x0 < 64 && x1 < 64 && x2 < 64 && x3 < 64
    ensures DecodeGroup([CharOf(x0), CharOf(x1), CharOf(x2), CharOf(x3)], last)
            == Some([x0 * 4 + x1 / 16, (x1 % 16) * 16 + x2 / 4, (x2 % 4) * 64 + x3])
  {
  }

  /** The six-bit pieces of three bytes put back together give the bytes. */
  lemma RejoinBytes(b0: byte, b1: byte, b2: byte)
    ensures (b0 / 4) * 4 + ((b0 % 4) * 16 + b1 / 16) / 16 == b0
    ensures (((b0 % 4) * 16 + b1 / 16) % 16) * 16 + ((b1 % 16) * 4 + b2 / 64) / 4 == b1
    ensures (((b1 % 16) * 4 + b2 / 64) % 4) * 64 + b2 % 64 == b2
  {
    ByteParts(b0); ByteParts(b1); ByteParts(b2);
    Split16(b0 % 4, b1 / 16);
    Split4(b1 % 16, b2 / 64);
  }

  lemma DecodeFullGroup(b0: byte, b1: byte, b2: byte, last: bool)
    ensures DecodeGroup(EncodeGroup(b0, b1, b2), last) == Some([b0, b1, b2])
  {
    var x0, x1, x2, x3 := b0 / 4, (b0 % 4) * 16 + b1 / 16, (b1 % 16) * 4 + b2 / 64, b2 % 64;
    assert x0 < 64 && x1 < 64 && x2 < 64 && x3 < 64 by { ByteParts(b0); ByteParts(b1); ByteParts(b2); }
    assert EncodeGroup(b0, b1, b2) == [CharOf(x0), CharOf(x1), CharOf(x2), CharOf(x3)];
    DecodeFullValues(x0, x1, x2, x3, last);
    RejoinBytes(b0, b1, b2);
  }

  /** Encoding a one-byte tail: two characters and two pad signs. */
  function EncodeOne(b0: byte): string {
    [CharOf(b0 / 4), CharOf((b0 % 4) * 16), '=', '=']
  }

  /** Encoding a two-byte tail: three characters and one pad sign. */
  function EncodeTwo(b0: byte, b1: byte): string {
    [CharOf(b0 / 4), CharOf((b0 % 4) * 16 + b1 / 16), CharOf((b1 % 16) * 4), '=']
  }

  lemma DecodeOneValue(x0: nat, x1: nat)
    requires x0 < 64 && x1 < 64 && x1 % 16 == 0
    ensures DecodeGroup([CharOf(x0), CharOf(x1), '=', '='], true) == Some([x0 * 4 + x1 / 16])
  {
  }

  lemma DecodeTwoValues(x0: nat, x1: nat, x2: nat)
    requires x0 < 64 && x1 < 64 && x2 < 64 && x2 % 4 == 0
    ensures DecodeGroup([CharOf(x0), CharOf(x1), CharOf(x2), '='], true)
            == Some([x0 * 4 + x1 / 16, (x1 % 16) * 16 + x2 / 4])
  {
  }

  lemma DecodeOneByte(b0: byte)
    ensures DecodeGroup(EncodeOne(b0), true) == Some([b0])
  {
    ByteParts(b0);
    Split16(b0 % 4, 0);
    DecodeOneValue(b0 / 4, (b0 % 4) * 16);
  }

  lemma DecodeTwoBytes(b0: byte, b1: byte)
    ensures DecodeGroup(EncodeTwo(b0, b1), true) == Some([b0, b1])
  {
    var x0, x1, x2 := b0 / 4, (b0 % 4) * 16 + b1 / 16, (b1 % 16) * 4;
    assert x0 < 64 && x1 < 64 && x2 < 64 && x2 % 4 == 0 by { ByteParts(b0); ByteParts(b1); }
    DecodeTwoValues(x0, x1, x2);
    assert x0 * 4 + x1 / 16 == b0 && (x1 % 16) * 16 + x2 / 4 == b1 by {
      ByteParts(b0); ByteParts(b1);
      Split16(b0 % 4, b1 / 16);
      Split4(b1 % 16, 0);
    }
  }

  /** Decoding proceeds group by group. */
  lemma DecodeCons(g: string, rest: string, x: seq<byte>, y: seq<byte>)
    requires |g| == 4
    requires DecodeGroup(g, rest == []) == Some(x) && Decode(rest) == Some(y)
    ensures Decode(g + rest) == Some(x + y)
  {
    var s := g + rest;
    assert s[..4] == g && s[4..] == rest;
    assert |s| == 4 <==> rest == [];
  }

  lemma DecodeEncodeShort(b: seq<byte>)
    requires 1 <= |b| <= 2
    ensures Decode(Encode(b)) == Some(b)
  {
    var e := Encode(b);
    if |b| == 1 {
      DecodeOneByte(b[0]);
      assert [b[0]] == b;
    } else {
      DecodeTwoBytes(b[0], b[1]);
      assert [b[0], b[1]] == b;
    }
    assert e[..4] == e;
    assert Decode(e[4..]) == Some([]);
    assert b + [] == b;
  }

  /** The encoding is lossless: the reference decoder recovers every byte string. */
  lemma {:induction false} DecodeEncode(b: seq<byte>)
    ensures Decode(Encode(b)) == Some(b)
    decreases |b|
  {
    if 1 <= |b| <= 2 {
      DecodeEncodeShort(b);
    } else if |b| >= 3 {
      var rest := Encode(b[3..]);
      DecodeFullGroup(b[0], b[1], b[2], rest == []);
      DecodeEncode(b[3..]);
      DecodeCons(EncodeGroup(b[0], b[1], b[2]), rest, [b[0], b[1], b[2]], b[3..]);
      assert [b[0], b[1], b[2]] + b[3..] == b;
    }
  }

  /** Encoding of the UTF-8 bytes of a string, as `b64encode(s.encode()).decode()`. */
  function EncodeText(s: string): (r: string)
    ensures Decode(r) == Some(Utf8.Encode(s))
  {
    DecodeEncode(Utf8.Encode(s));
    Encode(Utf8.Encode(s))
  }
}
