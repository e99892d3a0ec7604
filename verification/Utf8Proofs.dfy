/** The decoder accepts exactly UTF-8 as RFC 3629 defines it: it inverts the encoding of
    every text, and what it accepts is the encoding of a text. */
module Utf8Proofs {
  import opened Prelude
  import opened Utf8

  /** A Unicode scalar value. */
  predicate Scalar(c: nat) { c < 0x11_0000 && !(0xD800 <= c < 0xE000) }

  predicate Scalars(t: Text) { forall i :: 0 <= i < |t| ==> Scalar(t[i]) }

  /** The encoding of one scalar value in one to four bytes. */
  function EncodeOne(c: nat): (s: bytes)
    requires Scalar(c)
    ensures 1 <= |s| <= 4
  {
    if c < 0x80 then [c]
    else if c < 0x800 then [0xC0 + c / 0x40, 0x80 + c % 0x40]
    else if c < 0x1_0000 then [0xE0 + c / 0x1000, 0x80 + c / 0x40 % 0x40, 0x80 + c % 0x40]
    else [0xF0 + c / 0x4_0000, 0x80 + c / 0x1000 % 0x40, 0x80 + c / 0x40 % 0x40, 0x80 + c % 0x40]
  }

  function Encode(t: Text): bytes
    requires Scalars(t)
  {
    if t == [] then [] else EncodeOne(t[0]) + Encode(t[1..])
  }

  lemma HeadOfTwo(c: nat, rest: bytes)
    requires 0x80 <= c < 0x800
    ensures Head(EncodeOne(c) + rest) == Some((c, 2))
  {
    var s := EncodeOne(c) + rest;
    assert s[0] == 0xC0 + c / 0x40 && s[1] == 0x80 + c % 0x40;
  }

  lemma HeadOfThree(c: nat, rest: bytes)
    requires Scalar(c) && 0x800 <= c < 0x1_0000
    ensures Head(EncodeOne(c) + rest) == Some((c, 3))
  {
    var s := EncodeOne(c) + rest;
    var p, q, r := c / 0x1000, c / 0x40 % 0x40, c % 0x40;
    assert c == p * 0x1000 + q * 0x40 + r;
    assert s[0] == 0xE0 + p && s[1] == 0x80 + q && s[2] == 0x80 + r;
  }

  lemma FourRanges(c: nat)
    requires 0x1_0000 <= c < 0x11_0000
    ensures
      var o, p, q, r := c / 0x4_0000, c / 0x1000 % 0x40, c / 0x40 % 0x40, c % 0x40;
      && c == o * 0x4_0000 + p * 0x1000 + q * 0x40 + r
      && o <= 4 && (o == 0 ==> p >= 0x10) && (o == 4 ==> p < 0x10)
  {
  }

  lemma HeadOfFourBytes(s: bytes, o: nat, p: nat, q: nat, r: nat)
    requires o <= 4 && p < 0x40 && q < 0x40 && r < 0x40 && (o == 0 ==> p >= 0x10) && (o == 4 ==> p < 0x10)
    requires |s| >= 4 && s[0] == 0xF0 + o && s[1] == 0x80 + p && s[2] == 0x80 + q && s[3] == 0x80 + r
    ensures Head(s) == Some((o * 0x4_0000 + p * 0x1000 + q * 0x40 + r, 4))
  {
  }

  lemma HeadOfFour(c: nat, rest: bytes)
    requires Scalar(c) && 0x1_0000 <= c
    ensures Head(EncodeOne(c) + rest) == Some((c, 4))
  {
    FourRanges(c);
    hide Head;
    HeadOfFourBytes(EncodeOne(c) + rest, c / 0x4_0000, c / 0x1000 % 0x40, c / 0x40 % 0x40, c % 0x40);
  }

  lemma HeadOfEncoding(c: nat, rest: bytes)
    requires Scalar(c)
    ensures Head(EncodeOne(c) + rest) == Some((c, |EncodeOne(c)|))
  {
    if c < 0x80 {
      assert (EncodeOne(c) + rest)[0] == c;
    } else if c < 0x800 {
      HeadOfTwo(c, rest);
    } else if c < 0x1_0000 {
      HeadOfThree(c, rest);
    } else {
      HeadOfFour(c, rest);
    }
  }

  lemma EncodingOfHead(s: bytes)
    requires s != [] && Head(s).Some?
    ensures
      var (c, width) := Head(s).value;
      Scalar(c) && EncodeOne(c) == s[..width]
  {
    var b: nat := s[0];
    if b < 0x80 {
    } else if b < 0xE0 {
      TwoBytes(b, s[1]);
    } else if b < 0xF0 {
      ThreeBytes(b, s[1], s[2]);
    } else {
      FourBytes(b, s[1], s[2], s[3]);
    }
  }

  lemma TwoBytes(b: nat, c: byte)
    requires 0xC2 <= b < 0xE0 && Continuation(c)
    ensures
      var n := (b - 0xC0) * 0x40 + Payload(c);
      Scalar(n) && EncodeOne(n) == [b, c]
  {
  }

  lemma ThreeBytes(b: nat, c: byte, d: byte)
    requires 0xE0 <= b < 0xF0 && Continuation(c) && Continuation(d)
    requires (b == 0xE0 ==> c >= 0xA0) && (b == 0xED ==> c < 0xA0)
    ensures
      var n := (b - 0xE0) * 0x1000 + Payload(c) * 0x40 + Payload(d);
      Scalar(n) && EncodeOne(n) == [b, c, d]
  {
    var n := (b - 0xE0) * 0x1000 + Payload(c) * 0x40 + Payload(d);
    assert n / 0x40 == (b - 0xE0) * 0x40 + Payload(c);
  }

  lemma FourDigits(o: nat, p: nat, q: nat, r: nat)
    requires p < 0x40 && q < 0x40 && r < 0x40
    ensures
      var n := o * 0x4_0000 + p * 0x1000 + q * 0x40 + r;
      n / 0x4_0000 == o && n / 0x1000 % 0x40 == p && n / 0x40 % 0x40 == q && n % 0x40 == r
  {
    var n := o * 0x4_0000 + p * 0x1000 + q * 0x40 + r;
    assert n / 0x40 == o * 0x1000 + p * 0x40 + q;
    assert n / 0x1000 == o * 0x40 + p;
  }

  lemma FourBytes(b: nat, c: byte, d: byte, e: byte)
    requires 0xF0 <= b < 0xF5 && Continuation(c) && Continuation(d) && Continuation(e)
    requires (b == 0xF0 ==> c >= 0x90) && (b == 0xF4 ==> c < 0x90)
    ensures
      var n := (b - 0xF0) * 0x4_0000 + Payload(c) * 0x1000 + Payload(d) * 0x40 + Payload(e);
      Scalar(n) && EncodeOne(n) == [b, c, d, e]
  {
    FourDigits(b - 0xF0, Payload(c), Payload(d), Payload(e));
  }

  lemma DecodeCons(s: bytes)
    requires s != []
    ensures
      match Head(s)
      case None => Decode(s) == None
      case Some(h) =>
        if Decode(s[h.1..]).None? then Decode(s) == None else Decode(s) == Some([h.0] + Decode(s[h.1..]).value)
  {
  }

  lemma EncodeCons(c: nat, t: Text)
    requires Scalar(c) && Scalars(t)
    ensures Scalars([c] + t) && Encode([c] + t) == EncodeOne(c) + Encode(t)
  {
    assert ([c] + t)[1..] == t;
  }

  lemma {:induction false} DecodeEncode(t: Text)
    requires Scalars(t)
    ensures Decode(Encode(t)) == Some(t)
  {
    if t != [] {
      var c, rest := t[0], t[1..];
      assert t == [c] + rest;
      EncodeCons(c, rest);
      DecodeEncode(rest);
      hide Head, EncodeOne, Decode, Encode;
      var s := EncodeOne(c) + Encode(rest);
      HeadOfEncoding(c, Encode(rest));
      assert s[|EncodeOne(c)|..] == Encode(rest);
      DecodeCons(s);
    }
  }

  /** The first step of decoding, read back as an encoding. */
  lemma DecodeStep(s: bytes) returns (c: nat, width: nat)
    requires s != [] && Decode(s).Some?
    ensures Scalar(c) && 0 < width <= |s| && EncodeOne(c) == s[..width]
    ensures Decode(s[width..]).Some? && Decode(s) == Some([c] + Decode(s[width..]).value)
  {
    hide Head, EncodeOne, Decode, Encode, Scalar;
    DecodeCons(s);
    EncodingOfHead(s);
    c, width := Head(s).value.0, Head(s).value.1;
  }

  lemma DecodeNothing()
    ensures Decode([]) == Some([]) && Encode([]) == []
  {
  }

  lemma {:induction false} EncodeDecode(s: bytes, t: Text)
    requires Decode(s) == Some(t)
    ensures Scalars(t) && Encode(t) == s
    decreases |s|
  {
    hide EncodeOne, Decode, Encode, Scalar;
    DecodeNothing();
    if s != [] {
      var c, width := DecodeStep(s);
      var rest, tail := Decode(s[width..]).value, s[width..];
      EncodeDecode(tail, rest);
      EncodeCons(c, rest);
      assert s == s[..width] + tail;
    }
  }

  /** The bytes decode to a text exactly when they are its encoding. */
  lemma DecodesExactly(s: bytes, t: Text)
    ensures Decode(s) == Some(t) <==> Scalars(t) && s == Encode(t)
  {
    if Decode(s).Some? {
      EncodeDecode(s, Decode(s).value);
    }
    if Scalars(t) {
      DecodeEncode(t);
    }
  }
}
