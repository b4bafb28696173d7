/** UTF-8 (RFC 3629), the encoding Python's `str.encode()` applies before
    credentials are base64-encoded. */
module Utf8 {
  import opened Wrappers

  type byte = x: int | 0 <= x < 256

  /** Encoding of one Unicode scalar value: 1 to 4 bytes. */
  function EncodeChar(c: char): (r: seq<byte>)
    ensures 1 <= |r| <= 4
  {
    var n := c as int;
    if n < 0x80 then [n]
    else if n < 0x800 then [0xC0 + n / 64, 0x80 + n % 64]
    else if n < 0x10000 then [0xE0 + n / 4096, 0x80 + (n / 64) % 64, 0x80 + n % 64]
    else [0xF0 + n / 262144, 0x80 + (n / 4096) % 64, 0x80 + (n / 64) % 64, 0x80 + n % 64]
  }

  function Encode(s: string): (r: seq<byte>)
    ensures |r| >= |s|
  {
    if s == [] then [] else EncodeChar(s[0]) + Encode(s[1..])
  }

  predicate IsCont(b: byte) { 0x80 <= b < 0xC0 }

  /** A code point that is a Unicode scalar value, i.e. a Dafny `char`. */
  predicate IsScalar(n: int) { 0 <= n < 0xD800 || 0xE000 <= n < 0x11_0000 }

  /** Length of the sequence a lead byte announces, 0 for a byte that cannot lead. */
  function SeqLength(b: byte): nat {
    if b < 0x80 then 1
    else if 0xC0 <= b < 0xE0 then 2
    else if 0xE0 <= b < 0xF0 then 3
    else if 0xF0 <= b < 0xF8 then 4
    else 0
  }

  /** Strict decoding of one character at the front of `b`: shortest form only. */
  function DecodeChar(b: seq<byte>): Option<(char, nat)>
  {
    if b == [] then None
    else
      var len := SeqLength(b[0]);
      if len == 0 || |b| < len then None
      else if len == 1 then Some((b[0] as char, 1))
      else if len == 2 then
        if !IsCont(b[1]) then None
        else
          var n := (b[0] as int - 0xC0) * 64 + (b[1] as int - 0x80);
          if n < 0x80 then None else Some((n as char, 2))
      else if len == 3 then
        if !IsCont(b[1]) || !IsCont(b[2]) then None
        else
          var n := (b[0] as int - 0xE0) * 4096 + (b[1] as int - 0x80) * 64 + (b[2] as int - 0x80);
          if n < 0x800 || !IsScalar(n) then None else Some((n as char, 3))
      else
        if !IsCont(b[1]) || !IsCont(b[2]) || !IsCont(b[3]) then None
        else
          var n := (b[0] as int - 0xF0) * 262144 + (b[1] as int - 0x80) * 4096 + (b[2] as int - 0x80) * 64 + (b[3] as int - 0x80);
          if n < 0x10000 || !IsScalar(n) then None else Some((n as char, 4))
  }

  function Decode(b: seq<byte>): Option<string>
    decreases |b|
  {
    if b == [] then Some([])
    else
      match DecodeChar(b)
      case None => None
      case Some((c, len)) =>
        if len == 0 || len > |b| then None
        else
          match Decode(b[len..])
          case None => None
          case Some(rest) => Some([c] + rest)
  }

  lemma Decode2(n: int, b: seq<byte>)
    requires 0x80 <= n < 0x800 && |b| >= 2
    requires b[0] == 0xC0 + n / 64 && b[1] == 0x80 + n % 64
    ensures DecodeChar(b) == Some((n as char, 2))
  {
    assert SeqLength(b[0]) == 2;
    assert (b[0] as int - 0xC0) * 64 + (b[1] as int - 0x80) == n;
  }

  lemma Decode3(n: int, b: seq<byte>)
    requires 0x800 <= n < 0x10000 && IsScalar(n) && |b| >= 3
    requires b[0] == 0xE0 + n / 4096 && b[1] == 0x80 + (n / 64) % 64 && b[2] == 0x80 + n % 64
    ensures DecodeChar(b) == Some((n as char, 3))
  {
    assert SeqLength(b[0]) == 3;
    var hi, mid, lo := n / 4096, (n / 64) % 64, n % 64;
    assert n == hi * 4096 + mid * 64 + lo;
    assert (b[0] as int - 0xE0) * 4096 + (b[1] as int - 0x80) * 64 + (b[2] as int - 0x80) == n;
  }

  lemma Decode4(n: int, b: seq<byte>)
    requires 0x10000 <= n < 0x11_0000 && |b| >= 4
    requires b[0] == 0xF0 + n / 262144 && b[1] == 0x80 + (n / 4096) % 64
    requires b[2] == 0x80 + (n / 64) % 64 && b[3] == 0x80 + n % 64
    ensures DecodeChar(b) == Some((n as char, 4))
  {
    assert SeqLength(b[0]) == 4;
    var top, hi, mid, lo := n / 262144, (n / 4096) % 64, (n / 64) % 64, n % 64;
    assert n / 4096 == top * 64 + hi;
    assert n / 64 == (n / 4096) * 64 + mid;
    assert n == top * 262144 + hi * 4096 + mid * 64 + lo;
    assert (b[0] as int - 0xF0) * 262144 + (b[1] as int - 0x80) * 4096 + (b[2] as int - 0x80) * 64 + (b[3] as int - 0x80) == n;
  }

  lemma DecodeEncodeChar(c: char, tail: seq<byte>)
    ensures DecodeChar(EncodeChar(c) + tail) == Some((c, |EncodeChar(c)|))
  {
    var n := c as int;
    var b := EncodeChar(c) + tail;
    if n < 0x80 {
    } else if n < 0x800 {
      Decode2(n, b);
    } else if n < 0x10000 {
      Decode3(n, b);
    } else {
      Decode4(n, b);
    }
  }

  /** Encoding is lossless: decoding the bytes of a string gives the string back,
      so distinct credentials never encode to the same bytes. */
  lemma {:induction false} DecodeEncode(s: string)
    ensures Decode(Encode(s)) == Some(s)
  {
    if s != [] {
      var e := EncodeChar(s[0]);
      var b := Encode(s);
      assert b == e + Encode(s[1..]);
      DecodeEncodeChar(s[0], Encode(s[1..]));
      assert b[|e|..] == Encode(s[1..]);
      DecodeEncode(s[1..]);
      assert [s[0]] + s[1..] == s;
    }
  }

  lemma {:induction false} EncodeConcat(a: string, b: string)
    ensures Encode(a + b) == Encode(a) + Encode(b)
  {
    if a != [] {
      assert (a + b)[1..] == a[1..] + b;
      EncodeConcat(a[1..], b);
    } else {
      assert a + b == b;
    }
  }

  /** An ASCII string encodes byte for byte. */
  lemma {:induction false} EncodeAscii(s: string)
    requires forall i :: 0 <= i < |s| ==> s[i] as int < 0x80
    ensures |Encode(s)| == |s|
    ensures forall i :: 0 <= i < |s| ==> Encode(s)[i] == s[i] as int
  {
    if s != [] {
      EncodeAscii(s[1..]);
    }
  }
}
