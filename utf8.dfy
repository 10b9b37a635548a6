/**
  UTF-8 (RFC 3629), as `unicode.encode('utf8')` produces it and as the JSON
  library decodes byte strings. Characters are Unicode scalar values.
 */
module Utf8 {
  import opened PyValues

  predicate IsContinuation(b: byte) {
    0x80 <= b < 0xC0
  }

  /** The one to four bytes that encode one character. */
  function EncodeChar(c: char): (r: seq<byte>)
    ensures 1 <= |r| <= 4
    ensures (c as int < 0x80) <==> |r| == 1
    ensures forall i :: 1 <= i < |r| ==> IsContinuation(r[i])
  {
    var n := c as int;
    if n < 0x80 then
      [n]
    else if n < 0x800 then
      [0xC0 + n / 64, 0x80 + n % 64]
    else if n < 0x1_0000 then
      [0xE0 + n / 4096, 0x80 + (n / 64) % 64, 0x80 + n % 64]
    else
      [0xF0 + n / 262144, 0x80 + (n / 4096) % 64, 0x80 + (n / 64) % 64, 0x80 + n % 64]
  }

  function Encode(s: string): (r: seq<byte>)
    ensures |s| <= |r| <= 4 * |s|
  {
    if s == [] then [] else EncodeChar(s[0]) + Encode(s[1..])
  }

  predicate IsScalar(n: int) {
    (0 <= n < 0xD800) || (0xE000 <= n < 0x11_0000)
  }

  /**
    The character at the front of `b` and the number of bytes it takes, or
    None when the front of `b` is not the shortest encoding of a scalar value.
   */
  function DecodeChar(b: seq<byte>): (r: Option<(char, nat)>)
    ensures r.Some? ==> 1 <= r.value.1 <= |b| && r.value.1 <= 4
  {
    if |b| == 0 then None
    else if b[0] < 0x80 then Some((b[0] as char, 1))
    else if b[0] < 0xC0 then None
    else if b[0] < 0xE0 then
      if |b| < 2 || !IsContinuation(b[1]) then None
      else
        var n := (b[0] as int - 0xC0) * 64 + (b[1] as int - 0x80);
        if n < 0x80 then None else Some((n as char, 2))
    else if b[0] < 0xF0 then
      if |b| < 3 || !IsContinuation(b[1]) || !IsContinuation(b[2]) then None
      else
        var n := (b[0] as int - 0xE0) * 4096 + (b[1] as int - 0x80) * 64 + (b[2] as int - 0x80);
        if n < 0x800 || !IsScalar(n) then None else Some((n as char, 3))
    else if b[0] < 0xF8 then
      if |b| < 4 || !IsContinuation(b[1]) || !IsContinuation(b[2]) || !IsContinuation(b[3]) then None
      else
        var n := (b[0] as int - 0xF0) * 262144 + (b[1] as int - 0x80) * 4096 + (b[2] as int - 0x80) * 64 + (b[3] as int - 0x80);
        if n < 0x1_0000 || !IsScalar(n) then None else Some((n as char, 4))
    else None
  }

  function Decode(b: seq<byte>): Option<string>
    decreases |b|
  {
    if b == [] then Some([])
    else match DecodeChar(b)
      case None => None
      case Some((c, k)) =>
        match Decode(b[k..])
        case None => None
        case Some(rest) => Some([c] + rest)
  }

  predicate IsUtf8(b: seq<byte>) {
    Decode(b).Some?
  }

  lemma Join2(n: int)
    requires 0 <= n
    ensures (n / 64) * 64 + n % 64 == n
  {
  }

  lemma Join3(n: int)
    requires 0 <= n
    ensures (n / 4096) * 4096 + ((n / 64) % 64) * 64 + n % 64 == n
  {
    assert n / 64 == (n / 4096) * 64 + (n / 64) % 64;
  }

  lemma Join4(n: int)
    requires 0 <= n
    ensures (n / 262144) * 262144 + ((n / 4096) % 64) * 4096 + ((n / 64) % 64) * 64 + n % 64 == n
  {
    assert n / 4096 == (n / 262144) * 64 + (n / 4096) % 64;
    Join3(n);
  }

  lemma DecodeEncodeChar(c: char, rest: seq<byte>)
    ensures DecodeChar(EncodeChar(c) + rest) == Some((c, |EncodeChar(c)|))
  {
    var n := c as int;
    var e := EncodeChar(c) + rest;
    if n < 0x80 {
    } else if n < 0x800 {
      var b0, b1 := e[0] as int, e[1] as int;
      assert b0 == 0xC0 + n / 64 && b1 == 0x80 + n % 64;
      Join2(n);
      assert (b0 - 0xC0) * 64 + (b1 - 0x80) == n;
    } else if n < 0x1_0000 {
      var b0, b1, b2 := e[0] as int, e[1] as int, e[2] as int;
      assert b0 == 0xE0 + n / 4096 && b1 == 0x80 + (n / 64) % 64 && b2 == 0x80 + n % 64;
      Join3(n);
      assert (b0 - 0xE0) * 4096 + (b1 - 0x80) * 64 + (b2 - 0x80) == n;
    } else {
      var b0, b1, b2, b3 := e[0] as int, e[1] as int, e[2] as int, e[3] as int;
      assert b0 == 0xF0 + n / 262144 && b1 == 0x80 + (n / 4096) % 64;
      assert b2 == 0x80 + (n / 64) % 64 && b3 == 0x80 + n % 64;
      Join4(n);
      assert (b0 - 0xF0) * 262144 + (b1 - 0x80) * 4096 + (b2 - 0x80) * 64 + (b3 - 0x80) == n;
    }
  }

  /** Decoding undoes encoding: the bytes `encode('utf8')` gives name the text again. */
  lemma {:induction false} DecodeEncode(s: string)
    ensures Decode(Encode(s)) == Some(s)
  {
    if s != [] {
      var head := EncodeChar(s[0]);
      var b := Encode(s);
      assert b == head + Encode(s[1..]);
      DecodeEncodeChar(s[0], Encode(s[1..]));
      assert b[|head|..] == Encode(s[1..]);
      DecodeEncode(s[1..]);
      assert b != [] && [s[0]] + s[1..] == s;
    }
  }

  lemma Split2(x0: int, x1: int)
    requires 0 <= x0 && 0 <= x1 < 64
    ensures (x0 * 64 + x1) / 64 == x0 && (x0 * 64 + x1) % 64 == x1
  {
  }

  lemma Split3(x0: int, x1: int, x2: int)
    requires 0 <= x0 && 0 <= x1 < 64 && 0 <= x2 < 64
    ensures var n := x0 * 4096 + x1 * 64 + x2;
      n / 4096 == x0 && (n / 64) % 64 == x1 && n % 64 == x2
  {
    var n := x0 * 4096 + x1 * 64 + x2;
    Split2(x0 * 64 + x1, x2);
    assert n == (x0 * 64 + x1) * 64 + x2;
    Split2(x0, x1);
    assert n / 4096 == (n / 64) / 64;
  }

  lemma Split4(x0: int, x1: int, x2: int, x3: int)
    requires 0 <= x0 && 0 <= x1 < 64 && 0 <= x2 < 64 && 0 <= x3 < 64
    ensures var n := x0 * 262144 + x1 * 4096 + x2 * 64 + x3;
      n / 262144 == x0 && (n / 4096) % 64 == x1 && (n / 64) % 64 == x2 && n % 64 == x3
  {
    var n := x0 * 262144 + x1 * 4096 + x2 * 64 + x3;
    assert n == (x0 * 64 + x1) * 4096 + x2 * 64 + x3;
    Split3(x0 * 64 + x1, x2, x3);
    Split2(x0, x1);
    assert n / 262144 == (n / 4096) / 64;
  }

  lemma EncodeDecodeChar(b: seq<byte>)
    requires DecodeChar(b).Some?
    ensures EncodeChar(DecodeChar(b).value.0) == b[..DecodeChar(b).value.1]
  {
    var (c, k) := DecodeChar(b).value;
    var n := c as int;
    if k == 2 {
      var x0, x1 := b[0] as int - 0xC0, b[1] as int - 0x80;
      assert n == x0 * 64 + x1;
      Split2(x0, x1);
    } else if k == 3 {
      var x0, x1, x2 := b[0] as int - 0xE0, b[1] as int - 0x80, b[2] as int - 0x80;
      assert n == x0 * 4096 + x1 * 64 + x2;
      Split3(x0, x1, x2);
    } else if k == 4 {
      var x0, x1, x2, x3 := b[0] as int - 0xF0, b[1] as int - 0x80, b[2] as int - 0x80, b[3] as int - 0x80;
      assert n == x0 * 262144 + x1 * 4096 + x2 * 64 + x3;
      Split4(x0, x1, x2, x3);
    }
  }

  /** Encoding undoes decoding: a valid UTF-8 byte string is the encoding of its text. */
  lemma {:induction false} EncodeDecode(b: seq<byte>)
    requires IsUtf8(b)
    ensures Encode(Decode(b).value) == b
    decreases |b|
  {
    if b != [] {
      var (c, k) := DecodeChar(b).value;
      EncodeDecodeChar(b);
      EncodeDecode(b[k..]);
      assert b == b[..k] + b[k..];
    }
  }
}
