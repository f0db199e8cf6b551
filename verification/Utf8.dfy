// The texts the splitter calls valid are the encodings of Unicode text.
module Utf8 {
  import opened Base
  import opened TaskMessages

  // Section 3 of RFC 3629: the scalar values are the code points up to 10FFFF
  // that are no surrogates, and each is encoded in one to four bytes.

  type Scalar = r: int | 0 <= r < 0xD800 || 0xE000 <= r <= 0x10FFFF

  // A byte that is not the first carries six bits.
  function Next(bits: int): Byte {
    0x80 + bits % 64
  }

  function Encode(r: Scalar): (bytes: seq<Byte>)
    ensures 1 <= |bytes| <= 4
  {
    if r <= 0x7F then [r as Byte]
    else if r <= 0x7FF then [0xC0 + r / 64, Next(r)]
    else if r <= 0xFFFF then [0xE0 + r / 64 / 64, Next(r / 64), Next(r)]
    else [(0xF0 + r / 64 / 64 / 64) as Byte, Next(r / 64 / 64), Next(r / 64), Next(r)]
  }

  function EncodeAll(rs: seq<Scalar>): seq<Byte> {
    if rs == [] then [] else Encode(rs[0]) + EncodeAll(rs[1..])
  }

  // The value of a character of n bytes.
  function Value(s: seq<int>, n: nat): int
    requires n <= |s|
  {
    if n == 1 then s[0]
    else if n == 2 then (s[0] - 0xC0) * 64 + s[1] - 0x80
    else if n == 3 then ((s[0] - 0xE0) * 64 + s[1] - 0x80) * 64 + s[2] - 0x80
    else if n == 4 then (((s[0] - 0xF0) * 64 + s[1] - 0x80) * 64 + s[2] - 0x80) * 64 + s[3] - 0x80
    else 0
  }

  lemma SixBits(high: int, b: Byte)
    requires Tail(b)
    ensures var r := high * 64 + b - 0x80; Next(r) == b && r / 64 == high
  {
  }

  lemma TwoBytes(a: Byte, b: Byte)
    requires 0xC2 <= a <= 0xDF && Tail(b)
    ensures var r := (a - 0xC0) * 64 + b - 0x80; 0x80 <= r <= 0x7FF && r / 64 == a as int - 0xC0 && Next(r) == b
  {
    SixBits(a as int - 0xC0, b);
  }

  lemma ThreeBytes(a: Byte, b: Byte, c: Byte)
    requires Tail(b) && Tail(c)
    requires (a == 0xE0 && 0xA0 <= b) || 0xE1 <= a <= 0xEC || (a == 0xED && b <= 0x9F) || 0xEE <= a <= 0xEF
    ensures var r := ((a - 0xE0) * 64 + b - 0x80) * 64 + c - 0x80;
      && 0x800 <= r <= 0xFFFF && (r < 0xD800 || 0xE000 <= r)
      && r / 64 / 64 == a as int - 0xE0 && Next(r / 64) == b && Next(r) == c
  {
    var high: int := a as int - 0xE0;
    SixBits(high, b);
    SixBits(high * 64 + b - 0x80, c);
  }

  lemma FourBytes(a: Byte, b: Byte, c: Byte, d: Byte)
    requires Tail(b) && Tail(c) && Tail(d)
    requires (a == 0xF0 && 0x90 <= b) || 0xF1 <= a <= 0xF3 || (a == 0xF4 && b <= 0x8F)
    ensures var r := (((a - 0xF0) * 64 + b - 0x80) * 64 + c - 0x80) * 64 + d - 0x80;
      && 0x10000 <= r <= 0x10FFFF
      && r / 64 / 64 / 64 == a as int - 0xF0 && Next(r / 64 / 64) == b && Next(r / 64) == c && Next(r) == d
  {
    var high: int := a as int - 0xF0;
    SixBits(high, b);
    SixBits(high * 64 + b - 0x80, c);
    SixBits((high * 64 + b - 0x80) * 64 + c - 0x80, d);
  }

  // Read at the front of a text, a character is its scalar's encoding.
  lemma FrontIsEncoded(s: seq<Byte>) returns (r: Scalar)
    requires CharLen(s) > 0
    ensures r == Value(s, CharLen(s)) && Encode(r) == s[..CharLen(s)]
  {
    var n := CharLen(s);
    if n == 2 {
      TwoBytes(s[0], s[1]);
    } else if n == 3 {
      ThreeBytes(s[0], s[1], s[2]);
    } else if n == 4 {
      FourBytes(s[0], s[1], s[2], s[3]);
    }
    hide Next, CharLen;
    r := Value(s, n);
  }

  // And the other way round.
  lemma EncodedIsFront(r: Scalar, rest: seq<Byte>)
    ensures CharLen(Encode(r) + rest) == |Encode(r)| && Value(Encode(r) + rest, |Encode(r)|) == r
  {
    var s := Encode(r) + rest;
    assert s[0] == Encode(r)[0] && (|Encode(r)| > 1 ==> s[1] == Encode(r)[1]);
    assert forall k | 0 <= k < |Encode(r)| :: s[k] == Encode(r)[k];
    assert r == r / 64 * 64 + r % 64;
    assert r / 64 == r / 64 / 64 * 64 + r / 64 % 64;
  }

  lemma {:induction false} EncodingsAreValid(rs: seq<Scalar>)
    ensures ValidUtf8(EncodeAll(rs))
  {
    hide Encode, CharLen;
    if rs != [] {
      var rest := EncodeAll(rs[1..]);
      EncodingsAreValid(rs[1..]);
      EncodedIsFront(rs[0], rest);
      assert (Encode(rs[0]) + rest)[|Encode(rs[0])|..] == rest;
    }
  }

  lemma {:induction false} ValidIsEncoded(s: seq<Byte>) returns (rs: seq<Scalar>)
    requires ValidUtf8(s)
    ensures EncodeAll(rs) == s
    decreases |s|
  {
    hide Encode, CharLen, Value;
    if s == [] {
      rs := [];
    } else {
      var n := CharLen(s);
      var r := FrontIsEncoded(s);
      var more := ValidIsEncoded(s[n..]);
      rs := [r] + more;
      assert rs[1..] == more && s == s[..n] + s[n..];
    }
  }

  // Text is valid exactly if it encodes a sequence of scalar values.
  lemma ValidIff(s: seq<Byte>)
    ensures ValidUtf8(s) <==> exists rs: seq<Scalar> :: EncodeAll(rs) == s
  {
    hide ValidUtf8, EncodeAll;
    if ValidUtf8(s) {
      var rs := ValidIsEncoded(s);
    }
    forall rs: seq<Scalar>
      ensures ValidUtf8(EncodeAll(rs))
    {
      EncodingsAreValid(rs);
    }
  }

  // And of one sequence only.
  lemma {:induction false} EncodingIsUnique(rs: seq<Scalar>, qs: seq<Scalar>)
    requires EncodeAll(rs) == EncodeAll(qs)
    ensures rs == qs
  {
    hide Encode, CharLen, Value;
    if rs != [] && qs != [] {
      var a, b := EncodeAll(rs[1..]), EncodeAll(qs[1..]);
      EncodedIsFront(rs[0], a);
      EncodedIsFront(qs[0], b);
      var n := |Encode(rs[0])|;
      assert (Encode(rs[0]) + a)[n..] == a && (Encode(qs[0]) + b)[n..] == b;
      EncodingIsUnique(rs[1..], qs[1..]);
      assert rs == [rs[0]] + rs[1..] && qs == [qs[0]] + qs[1..];
    }
  }
}
