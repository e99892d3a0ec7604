/** What a header line is, from its text: which lines are lengths, which are tolerated, which
    are errors, and that tolerated ones may stand anywhere around a length. */
module HeaderText {
  import opened Prelude
  import opened Utf8
  import opened Codec
  import CodecProofs
  import Numerals
  import Utf8Proofs

  // ---- Trimming -------------------------------------------------------------

  /** The blanks are the code points with the `White_Space` property, one by one. */
  lemma BlanksExactly(c: nat)
    ensures Whitespace(c) <==>
      c in {0x9, 0xA, 0xB, 0xC, 0xD, 0x20, 0x85, 0xA0, 0x1680, 0x2000, 0x2001, 0x2002, 0x2003, 0x2004, 0x2005, 0x2006,
            0x2007, 0x2008, 0x2009, 0x200A, 0x2028, 0x2029, 0x202F, 0x205F, 0x3000}
  {
  }

  predicate Blanks(t: Text) { forall i :: 0 <= i < |t| ==> Whitespace(t[i]) }

  /** Empty, or without a blank at either end. */
  predicate Core(t: Text) { t != [] ==> !Whitespace(t[0]) && !Whitespace(t[|t| - 1]) }

  predicate LineEnd(t: Text) { forall i :: 0 <= i < |t| ==> t[i] in [13, 10] }

  /** Empty, or not ending in a carriage return or line feed. */
  predicate Ended(t: Text) { t != [] ==> t[|t| - 1] !in [13, 10] }

  lemma {:induction false} TrimStartExactly(a: Text, t: Text)
    requires Blanks(a) && (t != [] ==> !Whitespace(t[0]))
    ensures TrimStart(a + t) == t
  {
    if a == [] {
      assert a + t == t;
    } else {
      assert (a + t)[1..] == a[1..] + t;
      TrimStartExactly(a[1..], t);
    }
  }

  lemma {:induction false} TrimEndExactly(t: Text, b: Text)
    requires Blanks(b) && (t != [] ==> !Whitespace(t[|t| - 1]))
    ensures TrimEnd(t + b) == t
  {
    if b == [] {
      assert t + b == t;
    } else {
      assert (t + b)[..|t + b| - 1] == t + b[..|b| - 1];
      TrimEndExactly(t, b[..|b| - 1]);
    }
  }

  /** Trimming removes the blanks at both ends and nothing else. */
  lemma TrimExactly(a: Text, core: Text, b: Text)
    requires Blanks(a) && Core(core) && Blanks(b)
    ensures Trim(a + core + b) == core
  {
    if core == [] {
      assert a + core + b == (a + b) + [];
      TrimStartExactly(a + b, []);
    } else {
      assert a + core + b == a + (core + b);
      TrimStartExactly(a, core + b);
      TrimEndExactly(core, b);
    }
  }

  lemma {:induction false} TrimLineEndExactly(t: Text, eol: Text)
    requires Ended(t) && LineEnd(eol)
    ensures TrimLineEnd(t + eol) == t
  {
    if eol == [] {
      assert t + eol == t;
    } else {
      assert (t + eol)[..|t + eol| - 1] == t + eol[..|eol| - 1];
      TrimLineEndExactly(t, eol[..|eol| - 1]);
    }
  }

  // ---- Names and numbers ----------------------------------------------------

  /** "content-length", letter by letter. */
  const LENGTH_NAME: Text := [99, 111, 110, 116, 101, 110, 116, 45, 108, 101, 110, 103, 116, 104]

  /** Equal but for the case of some of the letters A to Z. */
  predicate SameButCase(a: Text, b: Text) {
    |a| == |b|
    && forall i :: 0 <= i < |a| ==>
         a[i] == b[i] || (65 <= a[i] <= 90 && b[i] == a[i] + 32) || (97 <= a[i] <= 122 && b[i] == a[i] - 32)
  }

  lemma NamesExactly(name: Text)
    ensures EqIgnoreAsciiCase(name, CONTENT_LENGTH) <==> SameButCase(name, LENGTH_NAME)
  {
  }

  /** The characters of decimal digits. */
  function Figures(digits: seq<nat>): (t: Text)
    ensures |t| == |digits|
    ensures forall i :: 0 <= i < |t| ==> t[i] == 48 + digits[i]
  {
    seq(|digits|, i requires 0 <= i < |digits| => 48 + digits[i])
  }

  /** `t` writes `n`: a plus sign or not, then at least one figure, any zeros leading. */
  ghost predicate Writes(t: Text, n: nat) {
    exists digits: seq<nat> ::
      && digits != [] && (forall i :: 0 <= i < |digits| ==> digits[i] < 10)
      && (t == Figures(digits) || t == [43] + Figures(digits))
      && Numerals.Value(digits, 10) == n
  }

  lemma FiguresAre(t: Text, digits: seq<nat>)
    requires digits != [] && forall i :: 0 <= i < |digits| ==> digits[i] < 10
    requires t == Figures(digits) || t == [43] + Figures(digits)
    ensures Unsigned(t) == Figures(digits) && AllFigures(Unsigned(t)) && Unsigned(t) != []
    ensures FigureValues(Unsigned(t)) == digits
  {
  }

  lemma ParseIs(t: Text, digits: seq<nat>)
    requires digits != [] && forall i :: 0 <= i < |digits| ==> digits[i] < 10
    requires t == Figures(digits) || t == [43] + Figures(digits)
    ensures
      var n := Numerals.Value(digits, 10);
      ParseLength(t) == if n <= 0xffff_ffff_ffff_ffff then Some(n) else None
  {
    FiguresAre(t, digits);
    hide Numerals.Value, Unsigned, AllFigures, Figures;
  }

  lemma ParsedDigits(t: Text) returns (digits: seq<nat>)
    requires ParseLength(t).Some?
    ensures digits != [] && forall i :: 0 <= i < |digits| ==> digits[i] < 10
    ensures t == Figures(digits) || t == [43] + Figures(digits)
  {
    hide Numerals.Value;
    var figures := Unsigned(t);
    digits := FigureValues(figures);
    assert Figures(digits) == figures;
    assert t == figures || t == [43] + figures;
  }

  /** A length is read exactly from what writes a number below 2^64. */
  lemma LengthsExactly(t: Text, n: nat)
    ensures ParseLength(t) == Some(n) <==> Writes(t, n) && n <= 0xffff_ffff_ffff_ffff
  {
    hide ParseLength, Numerals.Value, Figures;
    if ParseLength(t) == Some(n) {
      var digits := ParsedDigits(t);
      ParseIs(t, digits);
    }
    if Writes(t, n) {
      var digits: seq<nat> :|
        && digits != [] && (forall i :: 0 <= i < |digits| ==> digits[i] < 10)
        && (t == Figures(digits) || t == [43] + Figures(digits))
        && Numerals.Value(digits, 10) == n;
      ParseIs(t, digits);
    }
  }

  // ---- Lines ----------------------------------------------------------------

  /** Exactly what a line with a colon is, its first colon after the name, blanks anywhere
      around name and value: a length line when the name is `Content-Length` in any casing,
      good if the value writes a number below 2^64 and bad otherwise; any other header is
      tolerated. */
  lemma ColonLinesExactly(a: Text, name: Text, b: Text, c: Text, value: Text, d: Text, eol: Text)
    requires Blanks(a) && Core(name) && Blanks(b) && Blanks(c) && Core(value) && Blanks(d)
    requires COLON !in a + name + b && LineEnd(eol) && Ended(c + value + d)
    ensures
      var line := ClassifyText(a + name + b + [COLON] + (c + value + d) + eol);
      && (!SameButCase(name, LENGTH_NAME) ==> line == Other)
      && (SameButCase(name, LENGTH_NAME) ==>
            && (forall n :: Writes(value, n) && n <= 0xffff_ffff_ffff_ffff ==> line == Length(n))
            && ((forall n :: Writes(value, n) ==> n > 0xffff_ffff_ffff_ffff) ==> line == Bad(BadLength)))
  {
    var key, rest := a + name + b, c + value + d;
    TrimLineEndExactly(key + [COLON] + rest, eol);
    SplitOnceAt(key, COLON, rest);
    TrimExactly(a, name, b);
    TrimExactly(c, value, d);
    NamesExactly(name);
    hide Trim, SplitOnce, TrimLineEnd, ParseLength, EqIgnoreAsciiCase, SameButCase, Writes;
    forall n | Writes(value, n) && n <= 0xffff_ffff_ffff_ffff ensures ParseLength(value) == Some(n) {
      LengthsExactly(value, n);
    }
    if ParseLength(value).Some? {
      LengthsExactly(value, ParseLength(value).value);
    }
  }

  /** A line without a colon ends the header if it is blank, and is malformed otherwise. */
  lemma PlainLinesExactly(t: Text, eol: Text)
    requires COLON !in t && Ended(t) && LineEnd(eol)
    ensures ClassifyText(t + eol) == if t == [] then Blank else Bad(MalformedLine)
  {
    TrimLineEndExactly(t, eol);
    SplitOnceAbsent(t, COLON);
  }

  lemma {:induction false} TrimParts(t: Text) returns (a: Text, core: Text, b: Text)
    ensures t == a + core + b && Blanks(a) && Core(core) && Blanks(b)
  {
    if t == [] {
      a, core, b := [], [], [];
    } else if Whitespace(t[0]) {
      a, core, b := TrimParts(t[1..]);
      a := [t[0]] + a;
      assert t == [t[0]] + t[1..];
    } else if Whitespace(t[|t| - 1]) {
      a, core, b := TrimParts(t[..|t| - 1]);
      b := b + [t[|t| - 1]];
      assert t == t[..|t| - 1] + [t[|t| - 1]];
    } else {
      a, core, b := [], t, [];
    }
  }

  lemma {:induction false} LineParts(t: Text) returns (body: Text, eol: Text)
    ensures t == body + eol && Ended(body) && LineEnd(eol)
  {
    if t != [] && t[|t| - 1] in [13, 10] {
      body, eol := LineParts(t[..|t| - 1]);
      eol := eol + [t[|t| - 1]];
      assert t == t[..|t| - 1] + [t[|t| - 1]];
    } else {
      body, eol := t, [];
    }
  }

  lemma {:induction false} ColonParts(t: Text) returns (key: Text, rest: Text)
    requires COLON in t
    ensures t == key + [COLON] + rest && COLON !in key
  {
    if t[0] == COLON {
      key, rest := [], t[1..];
    } else {
      assert t == [t[0]] + t[1..];
      key, rest := ColonParts(t[1..]);
      key := [t[0]] + key;
    }
  }

  /** The two lemmas above cover every line. */
  lemma EveryLineIsEither(t: Text) returns (key: Text, rest: Text, eol: Text)
    ensures LineEnd(eol)
    ensures
      || (t == rest + eol && COLON !in rest && Ended(rest))
      || (t == key + [COLON] + rest + eol && COLON !in key && Ended(rest))
  {
    var body, end := LineParts(t);
    eol := end;
    if COLON in body {
      key, rest := ColonParts(body);
      if rest != [] {
        assert body[|body| - 1] == rest[|rest| - 1];
      }
    } else {
      key, rest := [], body;
    }
  }

  /** The bytes of a line are classified by the text they encode, and are an error if they
      encode none. */
  lemma BytesExactly(line: bytes, t: Text)
    ensures Utf8Proofs.Scalars(t) ==> Classify(Utf8Proofs.Encode(t)) == ClassifyText(t)
    ensures (forall u :: Utf8Proofs.Scalars(u) ==> line != Utf8Proofs.Encode(u)) ==> Classify(line) == Bad(InvalidUtf8)
  {
    hide ClassifyText, Decode, Utf8Proofs.Encode;
    if Utf8Proofs.Scalars(t) {
      Utf8Proofs.DecodesExactly(Utf8Proofs.Encode(t), t);
    }
    if Decode(line).Some? {
      Utf8Proofs.DecodesExactly(line, Decode(line).value);
    }
  }

  // ---- Headers around a length ----------------------------------------------

  /** A line of ASCII, with a colon in it, ended by carriage return and line feed. */
  function HeaderLine(name: bytes, value: bytes): bytes { name + [COLON] + value + [CR, LF] }

  predicate Printable(s: bytes) { Ascii(s) && CR !in s && LF !in s }

  /** A whole line, closed by its only line feed. */
  predicate Closed(line: bytes) { line != [] && LF !in line[..|line| - 1] && line[|line| - 1] == LF }

  lemma HeaderLineIsClosed(name: bytes, value: bytes)
    requires Printable(name) && Printable(value)
    ensures Closed(HeaderLine(name, value)) && Ascii(HeaderLine(name, value))
  {
    var line := HeaderLine(name, value);
    assert line[..|line| - 1] == name + [COLON] + value + [CR];
  }

  lemma HeaderTextIs(name: Text, value: Text)
    requires COLON !in name && Ended(value)
    ensures
      var line := ClassifyText(name + [COLON] + value + [CR, LF]);
      && (!SameButCase(Trim(name), LENGTH_NAME) ==> line == Other)
      && (SameButCase(Trim(name), LENGTH_NAME) ==>
            forall n :: Writes(Trim(value), n) && n <= 0xffff_ffff_ffff_ffff ==> line == Length(n))
  {
    var a, core, b := TrimParts(name);
    var c, kept, d := TrimParts(value);
    TrimExactly(a, core, b);
    TrimExactly(c, kept, d);
    hide ClassifyText, Trim, SameButCase, Writes;
    ColonLinesExactly(a, core, b, c, kept, d, [CR, LF]);
  }

  lemma HeaderLineIs(name: bytes, value: bytes)
    requires Printable(name) && Printable(value) && COLON !in name
    ensures
      var line := HeaderLine(name, value);
      && Closed(line)
      && (!SameButCase(Trim(name), LENGTH_NAME) ==> Classify(line) == Other)
      && (SameButCase(Trim(name), LENGTH_NAME) ==>
            forall n :: Writes(Trim(value), n) && n <= 0xffff_ffff_ffff_ffff ==> Classify(line) == Length(n))
  {
    HeaderLineIsClosed(name, value);
    assert Ended(value);
    HeaderTextIs(name, value);
    DecodeAscii(HeaderLine(name, value));
    hide ClassifyText, Trim, Decode, SameButCase, Writes;
  }

  /** A tolerated header line. */
  ghost predicate Extra(line: bytes) {
    exists name: bytes, value: bytes ::
      && Printable(name) && Printable(value) && COLON !in name && !SameButCase(Trim(name), LENGTH_NAME)
      && line == HeaderLine(name, value)
  }

  lemma ExtraIs(line: bytes)
    requires Extra(line)
    ensures Classify(line) == Other && Closed(line)
  {
    var name: bytes, value: bytes :|
      && Printable(name) && Printable(value) && COLON !in name && !SameButCase(Trim(name), LENGTH_NAME)
      && line == HeaderLine(name, value);
    HeaderLineIs(name, value);
  }

  lemma ScanFirst(line: bytes, tail: bytes, length: Option<nat>)
    requires Closed(line)
    ensures Classify(line).Other? ==> ScanHeader(line + tail, length) == Shift(ScanHeader(tail, length), |line|)
    ensures Classify(line).Length? ==>
      ScanHeader(line + tail, length) == Shift(ScanHeader(tail, Some(Classify(line).n)), |line|)
    ensures Classify(line).Blank? ==> ScanHeader(line + tail, length) == Block(|line|, length)
  {
    hide Classify, ScanHeader, LineLength;
    CodecProofs.LineLengthAt(line[..|line| - 1], tail);
    assert line[..|line| - 1] + [LF] + tail == line + tail;
    assert (line + tail)[..|line|] == line && (line + tail)[|line|..] == tail;
    ScanLine(line + tail, length, line, tail);
  }

  lemma {:induction false} ScanExtras(lines: seq<bytes>, tail: bytes, length: Option<nat>)
    requires forall i :: 0 <= i < |lines| ==> Extra(lines[i])
    ensures ScanHeader(Flatten(lines) + tail, length) == Shift(ScanHeader(tail, length), |Flatten(lines)|)
  {
    hide Extra, ScanHeader, Classify;
    if lines == [] {
      assert Flatten(lines) + tail == tail;
    } else {
      var line, rest := lines[0], lines[1..];
      ExtraIs(line);
      assert Flatten(lines) + tail == line + (Flatten(rest) + tail);
      ScanFirst(line, Flatten(rest) + tail, length);
      ScanExtras(rest, tail, length);
    }
  }

  lemma ScanAround(before: seq<bytes>, line: bytes, n: nat, after: seq<bytes>, rest: bytes)
    requires forall i :: 0 <= i < |before| ==> Extra(before[i])
    requires forall i :: 0 <= i < |after| ==> Extra(after[i])
    requires Closed(line) && Classify(line) == Length(n)
    ensures ScanHeader(Flatten(before) + (line + (Flatten(after) + ([CR, LF] + rest))), None) ==
      Block(|Flatten(before)| + |line| + |Flatten(after)| + 2, Some(n))
  {
    hide Extra, ScanHeader, Classify, Flatten;
    var last := [CR, LF] + rest;
    CodecProofs.ClassifyBlankLine();
    ScanFirst([CR, LF], rest, Some(n));
    ScanExtras(after, last, Some(n));
    ScanFirst(line, Flatten(after) + last, None);
    ScanExtras(before, line + (Flatten(after) + last), None);
  }

  /** A header block: other lines around a length line, and the blank line. */
  function HeaderBlock(before: seq<bytes>, line: bytes, after: seq<bytes>): bytes {
    Flatten(before) + (line + (Flatten(after) + [CR, LF]))
  }

  lemma BlockThen(before: seq<bytes>, line: bytes, after: seq<bytes>, rest: bytes)
    ensures HeaderBlock(before, line, after) + rest == Flatten(before) + (line + (Flatten(after) + ([CR, LF] + rest)))
    ensures |HeaderBlock(before, line, after)| == |Flatten(before)| + |line| + |Flatten(after)| + 2
  {
    hide Flatten;
  }

  /** Extra header lines are tolerated: any number of them, in any order, before and after a
      length line of any casing and spacing, the frame is read as it stands, its body what
      the length says. */
  lemma ExtraHeadersTolerated(before: seq<bytes>, name: bytes, value: bytes, after: seq<bytes>, body: bytes,
                              rest: bytes)
    requires forall i :: 0 <= i < |before| ==> Extra(before[i])
    requires forall i :: 0 <= i < |after| ==> Extra(after[i])
    requires Printable(name) && Printable(value) && COLON !in name
    requires SameButCase(Trim(name), LENGTH_NAME) && Writes(Trim(value), |body|)
    requires |HeaderBlock(before, HeaderLine(name, value), after)| + |body| <= MAX_VECTOR
    ensures
      var header := HeaderBlock(before, HeaderLine(name, value), after);
      && Read(header + body + rest) == Got(Frame(header + body, |header|))
      && Frame(header + body, |header|).Body() == body
  {
    hide Extra, ScanHeader, Classify, Trim, SameButCase, Writes, HeaderLine, Flatten, HeaderBlock, Printable, Read;
    HeaderLineIs(name, value);
    var line := HeaderLine(name, value);
    ScanAround(before, line, |body|, after, body + rest);
    BlockThen(before, line, after, body + rest);
    ReadBlock(HeaderBlock(before, line, after), body, rest);
  }

  lemma ReadBlock(header: bytes, body: bytes, rest: bytes)
    requires ScanHeader(header + (body + rest), None) == Block(|header|, Some(|body|))
    requires |header| + |body| <= MAX_VECTOR
    ensures Read(header + body + rest) == Got(Frame(header + body, |header|))
    ensures Frame(header + body, |header|).Body() == body
  {
    hide ScanHeader;
    assert header + body + rest == header + (body + rest);
    assert (header + body + rest)[..|header| + |body|] == header + body;
  }
}
