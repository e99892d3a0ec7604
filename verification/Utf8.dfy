/** UTF-8 decoding of a header line and the text operations applied to it. */
module Utf8 {
  import opened Prelude

  /** Code points. */
  type Text = seq<nat>

  predicate Continuation(b: byte) { 0x80 <= b < 0xC0 }

  /** The six bits a continuation byte carries. */
  function Payload(b: byte): nat { b % 0x40 }

  /** The code point at the head of `s` and the number of bytes it takes, when the
      head is well formed: no overlong form, no surrogate, nothing past U+10FFFF. */
  function Head(s: bytes): (r: Option<(nat, nat)>)
    requires s != []
    ensures r.Some? ==> 1 <= r.value.1 <= |s|
    ensures s[0] < 0x80 ==> r == Some((s[0] as nat, 1))
  {
    var b: nat := s[0];
    if b < 0x80 then Some((b, 1))
    else if 0xC2 <= b < 0xE0 && |s| >= 2 && Continuation(s[1]) then
      Some(((b - 0xC0) * 0x40 + Payload(s[1]), 2))
    else if 0xE0 <= b < 0xF0 && |s| >= 3 && Continuation(s[1]) && Continuation(s[2])
            && (b == 0xE0 ==> s[1] >= 0xA0) && (b == 0xED ==> s[1] < 0xA0) then
      Some(((b - 0xE0) * 0x1000 + Payload(s[1]) * 0x40 + Payload(s[2]), 3))
    else if 0xF0 <= b < 0xF5 && |s| >= 4 && Continuation(s[1]) && Continuation(s[2]) && Continuation(s[3])
            && (b == 0xF0 ==> s[1] >= 0x90) && (b == 0xF4 ==> s[1] < 0x90) then
      Some(((b - 0xF0) * 0x4_0000 + Payload(s[1]) * 0x1000 + Payload(s[2]) * 0x40 + Payload(s[3]), 4))
    else None
  }

  /** The text `s` encodes, or None when it is not UTF-8. */
  function Decode(s: bytes): Option<Text> {
    if s == [] then Some([])
    else
      match Head(s)
      case None => None
      case Some((point, width)) =>
        match Decode(s[width..])
        case None => None
        case Some(rest) => Some([point] + rest)
  }

  predicate Ascii(s: bytes) { forall i :: 0 <= i < |s| ==> s[i] < 0x80 }

  lemma {:induction false} DecodeAscii(s: bytes)
    requires Ascii(s)
    ensures Decode(s) == Some(s)
  {
    if s != [] {
      DecodeAscii(s[1..]);
      assert s == [s[0]] + s[1..];
    }
  }

  /** The code points with the `White_Space` property. */
  predicate Whitespace(c: nat) {
    9 <= c <= 13 || c == 32 || c == 0x85 || c == 0xA0 || c == 0x1680 || 0x2000 <= c <= 0x200A
    || c == 0x2028 || c == 0x2029 || c == 0x202F || c == 0x205F || c == 0x3000
  }

  function TrimStart(t: Text): Text {
    if t != [] && Whitespace(t[0]) then TrimStart(t[1..]) else t
  }

  function TrimEnd(t: Text): Text {
    if t != [] && Whitespace(t[|t| - 1]) then TrimEnd(t[..|t| - 1]) else t
  }

  function Trim(t: Text): Text { TrimEnd(TrimStart(t)) }

  /** Drop every carriage return and line feed at the end. */
  function TrimLineEnd(t: Text): Text {
    if t != [] && (t[|t| - 1] == 13 || t[|t| - 1] == 10) then TrimLineEnd(t[..|t| - 1]) else t
  }

  /** The text before and after the first `c`, if there is one. */
  function SplitOnce(t: Text, c: nat): Option<(Text, Text)> {
    if t == [] then None
    else if t[0] == c then Some(([], t[1..]))
    else
      match SplitOnce(t[1..], c)
      case None => None
      case Some((before, after)) => Some(([t[0]] + before, after))
  }

  lemma {:induction false} SplitOnceAt(before: Text, c: nat, after: Text)
    requires c !in before
    ensures SplitOnce(before + [c] + after, c) == Some((before, after))
  {
    var t := before + [c] + after;
    if before == [] {
      assert t[1..] == after;
    } else {
      assert t[1..] == before[1..] + [c] + after;
      SplitOnceAt(before[1..], c, after);
      assert before == [t[0]] + before[1..];
    }
  }

  lemma {:induction false} SplitOnceAbsent(t: Text, c: nat)
    requires c !in t
    ensures SplitOnce(t, c) == None
  {
    if t != [] {
      SplitOnceAbsent(t[1..], c);
    }
  }

  function Lower(c: nat): nat { if 65 <= c <= 90 then c + 32 else c }

  /** Equality up to the case of ASCII letters. */
  predicate EqIgnoreAsciiCase(a: Text, b: Text) {
    |a| == |b| && forall i :: 0 <= i < |a| ==> Lower(a[i]) == Lower(b[i])
  }
}
