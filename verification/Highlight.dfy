/** The viewer's highlighter: the events of a syntax highlighter become styled lines that
    keep the source's text however the events cut and nest. */
module Highlight {
  import opened Prelude

  datatype Style = Style(colour: Option<nat>, bold: bool, italic: bool)

  const DEFAULT_STYLE := Style(None, false, false)

  const YELLOW: nat := 3

  /** The turnstile outside every highlight is drawn as an operator. */
  const OPERATOR_STYLE := Style(Some(YELLOW), true, false)

  const TURNSTILE: char := '\U{22A2}'

  datatype Span = Span(content: string, style: Style)

  type Line = seq<Span>

  datatype Event = Source(start: nat, end: nat) | HighlightStart(style: Style) | HighlightEnd | Failure

  // ---- Splitting and trimming -----------------------------------------------------------------

  function SplitLines(s: string): (parts: seq<string>)
    ensures |parts| > 0
  {
    if s == "" then [""]
    else
      var rest := SplitLines(s[1..]);
      if s[0] == '\n' then [""] + rest else [[s[0]] + rest[0]] + rest[1..]
  }

  function JoinLines(parts: seq<string>): string {
    if parts == [] then ""
    else if |parts| == 1 then parts[0]
    else parts[0] + "\n" + JoinLines(parts[1..])
  }

  lemma {:induction false} JoinSnoc(parts: seq<string>, part: string)
    requires parts != []
    ensures JoinLines(parts + [part]) == JoinLines(parts) + "\n" + part
  {
    if |parts| > 1 {
      JoinSnoc(parts[1..], part);
      assert (parts + [part])[1..] == parts[1..] + [part];
      assert parts[0] + "\n" + (JoinLines(parts[1..]) + "\n" + part)
          == parts[0] + "\n" + JoinLines(parts[1..]) + "\n" + part;
    } else {
      assert (parts + [part])[1..] == [part];
    }
  }

  predicate Unbroken(parts: seq<string>) {
    parts != [] && forall i :: 0 <= i < |parts| ==> '\n' !in parts[i]
  }

  /** Splitting undoes joining, and joining undoes splitting. */
  lemma {:induction false} SplitJoin(parts: seq<string>)
    requires Unbroken(parts)
    ensures SplitLines(JoinLines(parts)) == parts
    decreases |parts|, |parts[0]|
  {
    var s := JoinLines(parts);
    if parts[0] == "" {
      if |parts| > 1 {
        assert s[1..] == JoinLines(parts[1..]);
        SplitJoin(parts[1..]);
      }
    } else {
      var first := parts[0][1..];
      assert parts[0] == [parts[0][0]] + first && parts[0][0] in parts[0];
      var shorter := [first] + parts[1..];
      assert shorter[1..] == parts[1..];
      assert forall i :: 0 < i < |shorter| ==> shorter[i] == parts[i];
      assert s == [parts[0][0]] + JoinLines(shorter);
      SplitJoin(shorter);
      assert SplitLines(s) == [parts[0]] + parts[1..];
    }
  }

  lemma {:induction false} JoinSplit(s: string)
    ensures Unbroken(SplitLines(s)) && JoinLines(SplitLines(s)) == s
  {
    if s != "" {
      JoinSplit(s[1..]);
      var rest := SplitLines(s[1..]);
      if s[0] == '\n' {
        assert ([""] + rest)[1..] == rest;
      } else if |rest| > 1 {
        assert ([[s[0]] + rest[0]] + rest[1..])[1..] == rest[1..];
      }
    }
  }

  function TrimCr(s: string): string {
    if s == "" || s[|s| - 1] != '\r' then s else TrimCr(s[..|s| - 1])
  }

  function TrimAll(parts: seq<string>): (r: seq<string>)
    ensures |r| == |parts|
    ensures forall i :: 0 <= i < |parts| ==> r[i] == TrimCr(parts[i])
  {
    seq(|parts|, i requires 0 <= i < |parts| => TrimCr(parts[i]))
  }

  /** Only carriage returns are left before the end of the line. */
  predicate LineEnds(s: string) {
    s == "" || s[0] == '\n' || (s[0] == '\r' && LineEnds(s[1..]))
  }

  /** The text without the carriage returns at the end of a line. */
  function Clean(s: string): string {
    if s == "" then ""
    else if s[0] == '\r' && LineEnds(s[1..]) then Clean(s[1..])
    else [s[0]] + Clean(s[1..])
  }

  lemma {:induction false} TrimCons(c: char, s: string)
    ensures TrimCr([c] + s) == if c == '\r' && TrimCr(s) == "" then "" else [c] + TrimCr(s)
  {
    if s != "" && s[|s| - 1] == '\r' {
      TrimCons(c, s[..|s| - 1]);
      assert ([c] + s)[..|s|] == [c] + s[..|s| - 1];
    } else if s == "" {
      assert ([c] + s)[..0] == "";
      assert TrimCr("") == "";
    }
  }

  /** Whether the line ends here is whether nothing is left of its rest after trimming. */
  lemma {:induction false} LineEndsTrims(s: string)
    ensures LineEnds(s) <==> TrimCr(SplitLines(s)[0]) == ""
  {
    if s != "" && s[0] != '\n' {
      LineEndsTrims(s[1..]);
      TrimCons(s[0], SplitLines(s[1..])[0]);
    }
  }

  /** What follows the first line. */
  function JoinRest(rest: seq<string>): string {
    if rest == [] then "" else "\n" + JoinLines(rest)
  }

  lemma JoinFirst(first: string, rest: seq<string>)
    ensures JoinLines([first] + rest) == first + JoinRest(rest)
  {
    assert ([first] + rest)[1..] == rest;
    if rest != [] {
      Associative(first, "\n", JoinLines(rest));
    }
  }

  lemma Associative<T>(a: seq<T>, b: seq<T>, c: seq<T>)
    ensures (a + b) + c == a + (b + c)
  {
  }

  lemma JoinCons(c: char, parts: seq<string>)
    requires parts != []
    ensures JoinLines([[c] + parts[0]] + parts[1..]) == [c] + JoinLines(parts)
    ensures JoinLines([""] + parts) == "\n" + JoinLines(parts)
  {
    JoinFirst("", parts);
    assert JoinRest(parts) == "\n" + JoinLines(parts);
    JoinFirst([c] + parts[0], parts[1..]);
    JoinFirst(parts[0], parts[1..]);
    hide JoinLines, JoinRest;
    assert parts == [parts[0]] + parts[1..];
    Associative([c], parts[0], JoinRest(parts[1..]));
  }

  lemma CleanUnfold(s: string)
    ensures s == "" ==> Clean(s) == "" && SplitLines(s) == [""] && JoinLines(TrimAll([""])) == ""
    ensures TrimCr("") == ""
    ensures s != "" ==>
      var rest := SplitLines(s[1..]);
      && Clean(s) == (if s[0] == '\r' && LineEnds(s[1..]) then Clean(s[1..]) else [s[0]] + Clean(s[1..]))
      && SplitLines(s) == if s[0] == '\n' then [""] + rest else [[s[0]] + rest[0]] + rest[1..]
  {
  }

  /** Cleaning is splitting into lines, trimming each and joining again. */
  lemma {:induction false} CleanTrimsLines(s: string)
    ensures Clean(s) == JoinLines(TrimAll(SplitLines(s)))
  {
    CleanUnfold(s);
    hide TrimCr, LineEnds, JoinLines, SplitLines, Clean;
    if s != "" {
      var c, rest := s[0], SplitLines(s[1..]);
      var trimmed := TrimAll(rest);
      CleanTrimsLines(s[1..]);
      JoinCons(c, trimmed);
      if c == '\n' {
        assert TrimAll([""] + rest) == [""] + trimmed;
      } else {
        TrimCons(c, rest[0]);
        LineEndsTrims(s[1..]);
        var head := TrimCr([c] + rest[0]);
        assert TrimAll([[c] + rest[0]] + rest[1..]) == [head] + trimmed[1..];
        if head == "" {
          assert [head] + trimmed[1..] == trimmed;
        }
      }
    }
  }

  // ---- Cutting --------------------------------------------------------------------------------

  /** Cutting at the end of `a` trims what cleaning the whole would have kept. */
  predicate BadCut(a: string, b: string) {
    a != "" && a[|a| - 1] == '\r' && !LineEnds(b)
  }

  lemma {:induction false} LineEndsCut(a: string, b: string)
    requires !BadCut(a, b)
    ensures LineEnds(a + b) <==> if a == "" then LineEnds(b) else LineEnds(a)
  {
    if a == "" {
      assert a + b == b;
    } else if a[0] == '\r' {
      assert (a + b)[1..] == a[1..] + b;
      LineEndsCut(a[1..], b);
      assert |a| == 1 ==> a[1..] == "";
    }
  }

  lemma {:induction false} LineEndsLonger(a: string, b: string)
    requires LineEnds(a + b)
    ensures LineEnds(a)
  {
    if a != "" && a[0] == '\r' {
      assert (a + b)[1..] == a[1..] + b;
      LineEndsLonger(a[1..], b);
    }
  }

  /** Cleaning two pieces gives what cleaning the whole gives exactly when the cut is not
      bad; a bad cut loses text. */
  lemma {:induction false} CleanCut(a: string, b: string)
    ensures !BadCut(a, b) ==> Clean(a + b) == Clean(a) + Clean(b)
    ensures BadCut(a, b) ==> |Clean(a + b)| > |Clean(a)| + |Clean(b)|
  {
    if a == "" {
      assert a + b == b;
    } else {
      assert (a + b)[1..] == a[1..] + b;
      CleanCut(a[1..], b);
      if a[0] == '\r' {
        if BadCut(a[1..], b) || !BadCut(a, b) {
          if LineEnds(a[1..] + b) {
            LineEndsLonger(a[1..], b);
          } else if !BadCut(a, b) {
            LineEndsCut(a[1..], b);
          }
        } else {
          assert a[1..] == "";
          assert a[1..] + b == b;
        }
      }
    }
  }

  /** Nothing is trimmed from the piece. */
  predicate TrimsNothing(s: string) {
    && (s != "" ==> s[|s| - 1] != '\r')
    && (forall i :: 0 <= i < |s| - 1 && s[i] == '\r' ==> s[i + 1] != '\n')
  }

  lemma {:induction false} LineEndsTrimsSome(s: string)
    requires LineEnds(['\r'] + s)
    ensures !TrimsNothing(['\r'] + s)
  {
    var t := ['\r'] + s;
    assert t[1..] == s;
    if s != "" {
      assert t[|t| - 1] == s[|s| - 1];
      if s[0] == '\n' {
        assert t[0] == '\r' && t[1] == '\n';
      } else {
        assert s == ['\r'] + s[1..];
        LineEndsTrimsSome(s[1..]);
        if s[|s| - 1] != '\r' {
          var i :| 0 <= i < |s| - 1 && s[i] == '\r' && s[i + 1] == '\n';
          assert t[i + 1] == '\r' && t[i + 2] == '\n';
        }
      }
    }
  }

  lemma {:induction false} CleanKeeps(s: string)
    ensures |Clean(s)| <= |s|
    ensures TrimsNothing(s) <==> |Clean(s)| == |s|
    ensures TrimsNothing(s) ==> Clean(s) == s
  {
    if s != "" {
      var rest := s[1..];
      CleanKeeps(rest);
      assert s == [s[0]] + rest;
      if s[0] == '\r' && LineEnds(rest) {
        LineEndsTrimsSome(rest);
      } else {
        assert rest != "" ==> rest[|rest| - 1] == s[|s| - 1];
        if TrimsNothing(s) {
          forall i | 0 <= i < |rest| - 1 && rest[i] == '\r' ensures rest[i + 1] != '\n' {
            assert s[i + 1] == '\r';
          }
        } else if TrimsNothing(rest) {
          assert rest != "";
          var i :| 0 <= i < |s| - 1 && s[i] == '\r' && s[i + 1] == '\n';
          assert i > 0 ==> rest[i - 1] == '\r' && rest[i] == '\n';
        }
      }
    }
  }

  // ---- Events ---------------------------------------------------------------------------------

  /** Every source event is a range of the source, and none is a failure. */
  predicate InRange(source: string, events: seq<Event>) {
    forall e :: e in events ==> !e.Failure? && (e.Source? ==> e.start <= e.end <= |source|)
  }

  /** The source events cover the source from `at` to its end, in order. */
  predicate Covers(source: string, events: seq<Event>, at: nat) {
    if events == [] then at == |source|
    else match events[0]
      case Source(start, end) => start == at && start <= end <= |source| && Covers(source, events[1..], end)
      case Failure => false
      case _ => Covers(source, events[1..], at)
  }

  lemma {:induction false} CoversInRange(source: string, events: seq<Event>, at: nat)
    requires Covers(source, events, at)
    ensures InRange(source, events) && at <= |source|
  {
    if events != [] {
      CoversInRange(source, events[1..], if events[0].Source? then events[0].end else at);
      assert events == [events[0]] + events[1..];
    }
  }

  /** The style of the innermost highlight still open after the events, once the last
      `skip` open ones are disregarded. */
  function Innermost(events: seq<Event>, skip: nat): Style {
    if events == [] then DEFAULT_STYLE
    else
      var before := events[..|events| - 1];
      match events[|events| - 1]
      case HighlightStart(style) => if skip == 0 then style else Innermost(before, skip - 1)
      case HighlightEnd => Innermost(before, skip + 1)
      case _ => Innermost(before, skip)
  }

  /** The highlighter's stack: an end pops a style but never the default at the bottom. */
  function Stack(events: seq<Event>): (s: seq<Style>)
    ensures |s| > 0
  {
    if events == [] then [DEFAULT_STYLE]
    else
      var s := Stack(events[..|events| - 1]);
      match events[|events| - 1]
      case HighlightStart(style) => s + [style]
      case HighlightEnd => if |s| > 1 then s[..|s| - 1] else s
      case _ => s
  }

  /** Its entries are the open highlights, innermost on top, even with unbalanced ends. */
  lemma {:induction false} StackIsOpenHighlights(events: seq<Event>, skip: nat)
    ensures Stack(events)[0] == DEFAULT_STYLE
    ensures
      var s := Stack(events);
      Innermost(events, skip) == if skip < |s| then s[|s| - 1 - skip] else DEFAULT_STYLE
  {
    if events != [] {
      var before := events[..|events| - 1];
      match events[|events| - 1]
      case HighlightStart(_) => StackIsOpenHighlights(before, if skip == 0 then 0 else skip - 1);
      case HighlightEnd => StackIsOpenHighlights(before, skip + 1);
      case _ => StackIsOpenHighlights(before, skip);
    }
  }

  // ---- What is drawn --------------------------------------------------------------------------

  datatype Cell = Cell(c: char, style: Style)

  const BREAK := Cell('\n', DEFAULT_STYLE)

  /** A character as drawn inside the given highlight. */
  function Ink(c: char, style: Style): Cell {
    if c == '\n' then BREAK
    else if style == DEFAULT_STYLE && c == TURNSTILE then Cell(c, OPERATOR_STYLE)
    else Cell(c, style)
  }

  function Paint(s: string, style: Style): (cells: seq<Cell>)
    ensures |cells| == |s|
    ensures forall i :: 0 <= i < |s| ==> cells[i] == Ink(s[i], style)
  {
    seq(|s|, i requires 0 <= i < |s| => Ink(s[i], style))
  }

  /** What the events draw: each piece cleaned, in the style of the innermost highlight. */
  function Drawn(source: string, events: seq<Event>): seq<Cell>
    requires InRange(source, events)
  {
    if events == [] then []
    else
      var before, e := events[..|events| - 1], events[|events| - 1];
      Drawn(source, before)
      + if e.Source? then Paint(Clean(source[e.start..e.end]), Innermost(before, 0)) else []
  }

  function Chars(cells: seq<Cell>): (s: string)
    ensures |s| == |cells|
    ensures forall i :: 0 <= i < |cells| ==> s[i] == cells[i].c
  {
    seq(|cells|, i requires 0 <= i < |cells| => cells[i].c)
  }

  lemma CharsConcat(a: seq<Cell>, b: seq<Cell>)
    ensures Chars(a + b) == Chars(a) + Chars(b)
  {
  }

  lemma CharsOfPaint(s: string, style: Style)
    ensures Chars(Paint(s, style)) == s
  {
  }

  /** The pieces' text, cleaned, in order. */
  function CleanPieces(source: string, events: seq<Event>): string
    requires InRange(source, events)
  {
    if events == [] then ""
    else
      (if events[0].Source? then Clean(source[events[0].start..events[0].end]) else "")
      + CleanPieces(source, events[1..])
  }

  lemma {:induction false} CleanPiecesSnoc(source: string, events: seq<Event>, e: Event)
    requires InRange(source, events + [e]) && InRange(source, events)
    ensures CleanPieces(source, events + [e]) ==
      CleanPieces(source, events) + if e.Source? then Clean(source[e.start..e.end]) else ""
  {
    hide Clean;
    if events == [] {
      assert events + [e] == [e];
      assert [e][1..] == [];
    } else {
      assert (events + [e])[1..] == events[1..] + [e];
      CleanPiecesSnoc(source, events[1..], e);
    }
  }

  lemma {:induction false} DrawnText(source: string, events: seq<Event>)
    requires InRange(source, events)
    ensures Chars(Drawn(source, events)) == CleanPieces(source, events)
  {
    if events != [] {
      var before, e := events[..|events| - 1], events[|events| - 1];
      DrawnText(source, before);
      assert events == before + [e];
      CleanPiecesSnoc(source, before, e);
      if e.Source? {
        var piece := Clean(source[e.start..e.end]);
        CharsConcat(Drawn(source, before), Paint(piece, Innermost(before, 0)));
        CharsOfPaint(piece, Innermost(before, 0));
      }
    }
  }

  // ---- Preservation of text -------------------------------------------------------------------

  /** No cut between pieces falls inside carriage returns that stay in the line. */
  ghost predicate CutsWell(source: string, events: seq<Event>)
    requires InRange(source, events)
  {
    forall e :: e in events && e.Source? ==> !BadCut(source[e.start..e.end], source[e.end..])
  }

  ghost predicate TrimsNowhere(source: string, events: seq<Event>)
    requires InRange(source, events)
  {
    forall e :: e in events && e.Source? ==> TrimsNothing(source[e.start..e.end])
  }

  lemma {:induction false} PiecesClean(source: string, events: seq<Event>, at: nat)
    requires InRange(source, events) && at <= |source| && Covers(source, events, at)
    ensures |CleanPieces(source, events)| <= |Clean(source[at..])|
    ensures CutsWell(source, events) <==> |CleanPieces(source, events)| == |Clean(source[at..])|
    ensures CutsWell(source, events) ==> CleanPieces(source, events) == Clean(source[at..])
  {
    if events != [] {
      var e, rest := events[0], events[1..];
      assert events == [e] + rest;
      if e.Source? {
        PiecesClean(source, rest, e.end);
        assert source[at..] == source[at..e.end] + source[e.end..];
        CleanCut(source[at..e.end], source[e.end..]);
      } else {
        PiecesClean(source, rest, at);
      }
    }
  }

  lemma {:induction false} PiecesKeep(source: string, events: seq<Event>, at: nat)
    requires InRange(source, events) && at <= |source| && Covers(source, events, at)
    ensures |CleanPieces(source, events)| <= |source| - at
    ensures TrimsNowhere(source, events) <==> |CleanPieces(source, events)| == |source| - at
    ensures TrimsNowhere(source, events) ==> CleanPieces(source, events) == source[at..]
  {
    if events != [] {
      var e, rest := events[0], events[1..];
      assert events == [e] + rest;
      if e.Source? {
        PiecesKeep(source, rest, e.end);
        assert source[at..] == source[at..e.end] + source[e.end..];
        CleanKeeps(source[at..e.end]);
      } else {
        PiecesKeep(source, rest, at);
      }
    }
  }

  /** Drawing keeps the text exactly when no piece ends in a carriage return or has one
      before a newline. */
  lemma DrawingKeepsText(source: string, events: seq<Event>)
    requires InRange(source, events) && Covers(source, events, 0)
    ensures Chars(Drawn(source, events)) == source <==> TrimsNowhere(source, events)
  {
    DrawnText(source, events);
    PiecesKeep(source, events, 0);
    assert source[0..] == source;
  }

  // ---- In which style -------------------------------------------------------------------------

  predicate OnlyPieces(events: seq<Event>) { forall e :: e in events ==> e.Source? }

  /** Every highlight begun in these events ends in them, and no other ends. */
  function Depth(events: seq<Event>): int {
    if events == [] then 0
    else
      var e := events[|events| - 1];
      Depth(events[..|events| - 1]) + (if e.HighlightStart? then 1 else if e.HighlightEnd? then -1 else 0)
  }

  ghost predicate Balanced(events: seq<Event>) {
    && Depth(events) == 0
    && forall i :: 0 <= i <= |events| ==> Depth(events[..i]) >= 0
  }

  lemma InRangeParts(source: string, a: seq<Event>, b: seq<Event>)
    ensures InRange(source, a + b) <==> InRange(source, a) && InRange(source, b)
  {
    assert forall e :: e in a + b <==> e in a || e in b;
  }

  lemma DrawnSnoc(source: string, events: seq<Event>, e: Event)
    requires InRange(source, events + [e]) && InRange(source, events)
    ensures Drawn(source, events + [e]) ==
      Drawn(source, events) + if e.Source? then Paint(Clean(source[e.start..e.end]), Innermost(events, 0)) else []
    ensures e.Source? ==> Innermost(events + [e], 0) == Innermost(events, 0)
  {
    assert (events + [e])[..|events|] == events;
  }

  lemma NothingDrawn(source: string)
    ensures InRange(source, []) && CleanPieces(source, []) == "" && forall style :: Paint("", style) == []
  {
  }

  /** Pieces in a row are all drawn in the style open before them. */
  lemma {:induction false} PiecesDrawn(source: string, before: seq<Event>, pieces: seq<Event>)
    requires OnlyPieces(pieces)
    requires InRange(source, before + pieces) && InRange(source, before) && InRange(source, pieces)
    ensures Innermost(before + pieces, 0) == Innermost(before, 0)
    ensures Drawn(source, before + pieces) ==
      Drawn(source, before) + Paint(CleanPieces(source, pieces), Innermost(before, 0))
  {
    hide Clean, Drawn, Innermost, CleanPieces, InRange;
    if pieces == [] {
      NothingDrawn(source);
      assert before + pieces == before;
    } else {
      var init, last := pieces[..|pieces| - 1], pieces[|pieces| - 1];
      assert pieces == init + [last] && before + pieces == (before + init) + [last];
      InRangeParts(source, before + init, [last]);
      InRangeParts(source, init, [last]);
      PiecesDrawn(source, before, init);
      LastPieceDrawn(source, before, init, last);
    }
  }

  lemma LastPieceDrawn(source: string, before: seq<Event>, init: seq<Event>, last: Event)
    requires InRange(source, before) && InRange(source, before + init) && InRange(source, init) && last.Source?
    requires InRange(source, init + [last]) && InRange(source, (before + init) + [last])
    requires Innermost(before + init, 0) == Innermost(before, 0)
    requires Drawn(source, before + init) ==
      Drawn(source, before) + Paint(CleanPieces(source, init), Innermost(before, 0))
    ensures Innermost((before + init) + [last], 0) == Innermost(before, 0)
    ensures Drawn(source, (before + init) + [last]) ==
      Drawn(source, before) + Paint(CleanPieces(source, init + [last]), Innermost(before, 0))
  {
    assert last in init + [last];
    hide Clean, Drawn, Innermost, CleanPieces;
    CleanPiecesSnoc(source, init, last);
    DrawnSnoc(source, before + init, last);
    hide InRange;
    var style, text := Innermost(before, 0), Clean(source[last.start..last.end]);
    PaintConcat(CleanPieces(source, init), text, style);
    Associative(Drawn(source, before), Paint(CleanPieces(source, init), style), Paint(text, style));
  }

  lemma PaintConcat(a: string, b: string, style: Style)
    ensures Paint(a + b, style) == Paint(a, style) + Paint(b, style)
  {
  }

  lemma {:induction false} DrawnGrows(source: string, a: seq<Event>, b: seq<Event>)
    requires InRange(source, a + b) && InRange(source, a)
    ensures Drawn(source, a) <= Drawn(source, a + b)
  {
    hide Clean, Innermost;
    if b == [] {
      assert a + b == a;
    } else {
      var init, last := b[..|b| - 1], b[|b| - 1];
      assert (a + b)[..|a + b| - 1] == a + init;
      InRangeParts(source, a + init, [last]);
      assert a + init + [last] == a + b;
      DrawnGrows(source, a, init);
    }
  }

  /** A block that never ends more than it began leaves what was open before it open. */
  lemma {:induction false} StackGrows(before: seq<Event>, block: seq<Event>)
    requires forall i :: 0 <= i <= |block| ==> Depth(block[..i]) >= 0
    ensures |Stack(before + block)| == |Stack(before)| + Depth(block)
    ensures Stack(before) <= Stack(before + block)
  {
    if block == [] {
      assert before + block == before;
    } else {
      var init, last := block[..|block| - 1], block[|block| - 1];
      assert (before + block)[..|before + block| - 1] == before + init;
      assert forall i :: 0 <= i <= |init| ==> init[..i] == block[..i];
      assert block[..|block|] == block;
      StackGrows(before, init);
    }
  }

  /** After a balanced block the style is what it was before it. */
  lemma BlockClosed(before: seq<Event>, block: seq<Event>)
    requires Balanced(block)
    ensures Innermost(before + block, 0) == Innermost(before, 0)
  {
    StackGrows(before, block);
    StackIsOpenHighlights(before, 0);
    StackIsOpenHighlights(before + block, 0);
  }

  /** A highlight around a balanced block is a balanced block. */
  lemma HighlightIsBalanced(style: Style, block: seq<Event>)
    requires Balanced(block)
    ensures Balanced([HighlightStart(style)] + block + [HighlightEnd])
  {
    var all := [HighlightStart(style)] + block + [HighlightEnd];
    forall i | 0 <= i <= |all|
      ensures Depth(all[..i]) == if i == 0 || i == |all| then 0 else 1 + Depth(block[..i - 1])
    {
      DepthInside(style, block, i);
    }
    assert all[..|all|] == all;
  }

  lemma {:induction false} DepthInside(style: Style, block: seq<Event>, i: nat)
    requires i <= |block| + 2 && Depth(block) == 0
    ensures
      var all := [HighlightStart(style)] + block + [HighlightEnd];
      Depth(all[..i]) == if i == 0 || i == |all| then 0 else 1 + Depth(block[..i - 1])
  {
    var all := [HighlightStart(style)] + block + [HighlightEnd];
    if i > 0 {
      DepthInside(style, block, i - 1);
      assert all[..i][..i - 1] == all[..i - 1];
      if i == |all| {
        assert block[..i - 2] == block;
      } else if i > 1 {
        assert block[..i - 1][..i - 2] == block[..i - 2];
      }
    }
  }

  /** Where the pieces after `before` are drawn, and how: in the style open there. */
  lemma PiecesOnPage(source: string, before: seq<Event>, pieces: seq<Event>, after: seq<Event>, page: seq<Line>)
    requires InRange(source, before + pieces + after) && OnlyPieces(pieces)
    requires PageCells(page) == Drawn(source, before + pieces + after)
    ensures InRange(source, before) && InRange(source, pieces)
    ensures
      var from, text := |Drawn(source, before)|, CleanPieces(source, pieces);
      from + |text| <= |PageCells(page)| && PageCells(page)[from..from + |text|] == Paint(text, Innermost(before, 0))
  {
    InRangeParts(source, before + pieces, after);
    InRangeParts(source, before, pieces);
    hide CleanPieces, PageCells, Clean, Drawn, Innermost, InRange;
    PiecesDrawn(source, before, pieces);
    DrawnGrows(source, before + pieces, after);
  }

  lemma InkOnPage(cells: seq<Cell>, from: nat, text: string, style: Style)
    requires from + |text| <= |cells| && cells[from..from + |text|] == Paint(text, style)
    ensures forall k :: 0 <= k < |text| ==> cells[from + k] == Ink(text[k], style)
    ensures forall k :: 0 <= k < |text| ==> cells[from + k].c == text[k]
  {
    forall k | 0 <= k < |text| ensures cells[from + k] == Ink(text[k], style) {
      assert cells[from..from + |text|][k] == cells[from + k];
    }
  }

  /** A highlight is shown: in whatever it is nested, after whatever was begun and ended
      inside it, and whatever follows, the characters of its pieces appear on the page, in
      its style. */
  lemma HighlightIsShown(source: string, before: seq<Event>, style: Style, block: seq<Event>, pieces: seq<Event>,
                         after: seq<Event>, page: seq<Line>)
    requires InRange(source, before + [HighlightStart(style)] + block + pieces + after)
    requires Balanced(block) && OnlyPieces(pieces)
    requires PageCells(page) == Drawn(source, before + [HighlightStart(style)] + block + pieces + after)
    ensures InRange(source, before + [HighlightStart(style)] + block) && InRange(source, pieces)
    ensures
      var from := |Drawn(source, before + [HighlightStart(style)] + block)|;
      var text := CleanPieces(source, pieces);
      && from + |text| <= |PageCells(page)|
      && (forall k :: 0 <= k < |text| ==> PageCells(page)[from + k].c == text[k])
      && (style != Style(None, false, false) ==>
            forall k :: 0 <= k < |text| && text[k] != '\n' ==> PageCells(page)[from + k].style == style)
  {
    var open := before + [HighlightStart(style)];
    assert open[..|open| - 1] == before;
    assert Innermost(open, 0) == style;
    BlockClosed(open, block);
    PiecesOnPage(source, open + block, pieces, after, page);
    hide CleanPieces, PageCells, Drawn, Innermost, InRange, Balanced;
    InkOnPage(PageCells(page), |Drawn(source, open + block)|, CleanPieces(source, pieces), style);
  }

  /** A highlight ends: after its matching end, pieces are drawn exactly as if it had never
      been, in the style around it. */
  lemma HighlightEnds(source: string, before: seq<Event>, style: Style, block: seq<Event>, pieces: seq<Event>,
                      after: seq<Event>, page: seq<Line>)
    requires
      InRange(source, before + ([HighlightStart(style)] + block + [HighlightEnd]) + pieces + after)
    requires Balanced(block) && OnlyPieces(pieces)
    requires
      PageCells(page) == Drawn(source, before + ([HighlightStart(style)] + block + [HighlightEnd]) + pieces + after)
    ensures
      var inside := [HighlightStart(style)] + block + [HighlightEnd];
      && InRange(source, before + inside) && InRange(source, before) && InRange(source, before + pieces)
    ensures
      var inside := [HighlightStart(style)] + block + [HighlightEnd];
      var from := |Drawn(source, before + inside)|;
      var alone := Drawn(source, before + pieces);
      && |Drawn(source, before)| <= |alone|
      && from + (|alone| - |Drawn(source, before)|) <= |PageCells(page)|
      && PageCells(page)[from..from + (|alone| - |Drawn(source, before)|)] == alone[|Drawn(source, before)|..]
  {
    var inside := [HighlightStart(style)] + block + [HighlightEnd];
    HighlightIsBalanced(style, block);
    BlockClosed(before, inside);
    PiecesOnPage(source, before + inside, pieces, after, page);
    InRangeParts(source, before, inside);
    InRangeParts(source, before, pieces);
    hide CleanPieces, PageCells, Drawn, Innermost, InRange, Balanced;
    PiecesDrawn(source, before, pieces);
  }

  /** No highlight is open after the events: no last part of them begins more than it ends. */
  ghost predicate NothingOpen(events: seq<Event>) {
    forall i :: 0 <= i <= |events| ==> Depth(events[i..]) <= 0
  }

  lemma {:induction false} DepthOfLastPart(events: seq<Event>) returns (i: nat)
    ensures i <= |events| && Depth(events[i..]) == |Stack(events)| - 1
  {
    if events == [] {
      i := 0;
    } else {
      var init, last := events[..|events| - 1], events[|events| - 1];
      i := DepthOfLastPart(init);
      var part := events[i..];
      assert part[..|part| - 1] == init[i..] && part[|part| - 1] == last;
      if last.HighlightEnd? && |Stack(init)| == 1 {
        i := |events|;
        assert events[i..] == [];
      }
    }
  }

  /** With no highlight open, every character is in the default style except the turnstile,
      which is yellow and bold. */
  lemma UnhighlightedIsPlain(source: string, before: seq<Event>, pieces: seq<Event>, after: seq<Event>,
                             page: seq<Line>)
    requires InRange(source, before + pieces + after) && NothingOpen(before) && OnlyPieces(pieces)
    requires PageCells(page) == Drawn(source, before + pieces + after)
    ensures InRange(source, before) && InRange(source, pieces)
    ensures
      var from, text := |Drawn(source, before)|, CleanPieces(source, pieces);
      && from + |text| <= |PageCells(page)|
      && forall k :: 0 <= k < |text| ==>
           && PageCells(page)[from + k].c == text[k]
           && PageCells(page)[from + k].style ==
                if text[k] == TURNSTILE then Style(Some(YELLOW), true, false) else Style(None, false, false)
  {
    var i := DepthOfLastPart(before);
    StackIsOpenHighlights(before, 0);
    assert Innermost(before, 0) == DEFAULT_STYLE;
    PiecesOnPage(source, before, pieces, after, page);
    hide CleanPieces, PageCells, Drawn, Innermost, InRange, Stack;
    InkOnPage(PageCells(page), |Drawn(source, before)|, CleanPieces(source, pieces), DEFAULT_STYLE);
  }

  // ---- The plain rendering --------------------------------------------------------------------

  function PlainLine(text: string): Line {
    if text == "" then [] else [Span(text, DEFAULT_STYLE)]
  }

  /** Every line, trimmed, without any style. */
  function PlainText(source: string): (lines: seq<Line>)
    ensures |lines| == |SplitLines(source)|
    ensures forall i :: 0 <= i < |lines| ==> lines[i] == PlainLine(TrimCr(SplitLines(source)[i]))
  {
    var parts := SplitLines(source);
    seq(|parts|, i requires 0 <= i < |parts| => PlainLine(TrimCr(parts[i])))
  }

  function SpanCells(span: Span): seq<Cell> {
    seq(|span.content|, i requires 0 <= i < |span.content| => Cell(span.content[i], span.style))
  }

  function LineCells(line: Line): seq<Cell> {
    if line == [] then [] else LineCells(line[..|line| - 1]) + SpanCells(line[|line| - 1])
  }

  function Texts(lines: seq<Line>): (texts: seq<string>)
    ensures |texts| == |lines|
    ensures forall i :: 0 <= i < |lines| ==> texts[i] == Chars(LineCells(lines[i]))
  {
    seq(|lines|, i requires 0 <= i < |lines| => Chars(LineCells(lines[i])))
  }

  /** The cells of a page, with a break between lines. */
  function PageCells(lines: seq<Line>): seq<Cell> {
    if lines == [] then []
    else if |lines| == 1 then LineCells(lines[0])
    else PageCells(lines[..|lines| - 1]) + [BREAK] + LineCells(lines[|lines| - 1])
  }

  lemma {:induction false} PageText(lines: seq<Line>)
    ensures Chars(PageCells(lines)) == JoinLines(Texts(lines))
  {
    if |lines| > 1 {
      var before, last := lines[..|lines| - 1], lines[|lines| - 1];
      PageText(before);
      assert Texts(lines) == Texts(before) + [Chars(LineCells(last))];
      JoinSnoc(Texts(before), Chars(LineCells(last)));
      CharsConcat(PageCells(before) + [BREAK], LineCells(last));
      CharsConcat(PageCells(before), [BREAK]);
    }
  }

  /** The plain rendering shows, without any style, the source without the carriage returns
      at its lines' ends, and nothing else: its lines' texts are the source's trimmed, they
      have no breaks in them, and joined again they are the cleaned source. */
  lemma PlainTexts(source: string)
    ensures Texts(PlainText(source)) == TrimAll(SplitLines(source)) && Unbroken(Texts(PlainText(source)))
    ensures JoinLines(Texts(PlainText(source))) == Clean(source)
    ensures forall line, span :: line in PlainText(source) && span in line ==> span.style == DEFAULT_STYLE
  {
    TrimmedUnbroken(source);
    CleanTrimsLines(source);
    var parts := SplitLines(source);
    forall i | 0 <= i < |parts| ensures Texts(PlainText(source))[i] == TrimCr(parts[i]) {
      var t := TrimCr(parts[i]);
      if t != "" {
        var span := Span(t, DEFAULT_STYLE);
        assert [span][..0] == [];
        assert LineCells([span]) == SpanCells(span);
      }
    }
  }

  lemma {:induction false} TrimUnbroken(s: string)
    requires '\n' !in s
    ensures '\n' !in TrimCr(s)
  {
    if s != "" && s[|s| - 1] == '\r' {
      TrimUnbroken(s[..|s| - 1]);
    }
  }

  lemma TrimmedUnbroken(source: string)
    ensures Unbroken(TrimAll(SplitLines(source)))
  {
    JoinSplit(source);
    forall i | 0 <= i < |SplitLines(source)| ensures '\n' !in TrimAll(SplitLines(source))[i] {
      TrimUnbroken(SplitLines(source)[i]);
    }
  }

  /** A page that draws what the events draw has the same line texts as the plain rendering
      exactly when no cut is bad. */
  lemma SameLinesAsPlain(source: string, events: seq<Event>, page: seq<Line>)
    requires InRange(source, events) && Covers(source, events, 0)
    requires Unbroken(Texts(page)) && PageCells(page) == Drawn(source, events)
    ensures Texts(page) == Texts(PlainText(source)) <==> CutsWell(source, events)
  {
    var plain := TrimAll(SplitLines(source));
    PlainTexts(source);
    SplitJoin(plain);
    SplitJoin(Texts(page));
    PageText(page);
    DrawnText(source, events);
    CleanTrimsLines(source);
    PiecesClean(source, events, 0);
    assert source[0..] == source;
  }

  /** A cut right after a carriage return inside a line drops it, where the plain rendering
      keeps it. */
  lemma SplitReturnIsLost(events: seq<Event>)
    requires events == [Source(0, 1), Source(1, 2)]
    ensures Covers("\ra", events, 0) && InRange("\ra", events) && !CutsWell("\ra", events)
    ensures CleanPieces("\ra", events) == "a" && Clean("\ra") == "\ra"
  {
    var s := "\ra";
    assert events[1..] == [Source(1, 2)] && events[1..][1..] == [];
    assert s[0..1] == "\r" && s[1..2] == "a" == s[1..];
    assert LineEnds("\r") && Clean("\r") == "" by {
      assert "\r"[1..] == "";
    }
    assert Clean("a") == "a";
    assert CleanPieces(s, events[1..]) == "a" by {
      assert CleanPieces(s, events[1..][1..]) == "";
    }
    assert BadCut(s[0..1], s[1..]);
  }

  /** Without carriage returns there is nothing to trim and no cut is bad. */
  lemma NothingToTrim(source: string, events: seq<Event>, page: seq<Line>)
    requires '\r' !in source && InRange(source, events) && Covers(source, events, 0)
    requires Unbroken(Texts(page)) && PageCells(page) == Drawn(source, events)
    ensures JoinLines(Texts(page)) == source && Texts(page) == Texts(PlainText(source))
  {
    forall e | e in events && e.Source?
      ensures TrimsNothing(source[e.start..e.end]) && !BadCut(source[e.start..e.end], source[e.end..])
    {
      assert forall c :: c in source[e.start..e.end] ==> c in source;
    }
    DrawingKeepsText(source, events);
    SameLinesAsPlain(source, events, page);
    PageText(page);
  }

  /** Painting one more line of a joined text. */
  lemma PaintJoined(parts: seq<string>, index: nat, style: Style)
    requires index < |parts|
    ensures Paint(JoinLines(parts[..index + 1]), style) ==
      Paint(JoinLines(parts[..index]), style) + (if index > 0 then [BREAK] else []) + Paint(parts[index], style)
  {
    assert parts[..index + 1] == parts[..index] + [parts[index]];
    if index > 0 {
      JoinSnoc(parts[..index], parts[index]);
    }
  }

  /** A span added to the last line adds its characters, in its style, to the page. */
  lemma SpanPushed(lines: seq<Line>, spans: Line, span: Span)
    requires Unbroken(Texts(lines + [spans])) && '\n' !in span.content
    ensures PageCells(lines + [spans + [span]]) == PageCells(lines + [spans]) + SpanCells(span)
    ensures Unbroken(Texts(lines + [spans + [span]]))
  {
    var n, before, after := |lines|, lines + [spans], lines + [spans + [span]];
    assert before[..n] == after[..n] == lines;
    assert (spans + [span])[..|spans|] == spans;
    CharsConcat(LineCells(spans), SpanCells(span));
    assert Chars(SpanCells(span)) == span.content;
    assert Texts(after)[n] == Texts(before)[n] + span.content;
    assert forall i :: 0 <= i < n ==> Texts(after)[i] == Texts(before)[i];
  }

  lemma PaintPlain(text: string)
    requires TURNSTILE !in text && '\n' !in text
    ensures Paint(text, DEFAULT_STYLE) == SpanCells(Span(text, DEFAULT_STYLE))
  {
  }

  lemma PaintMore(done: string, more: string, start: seq<Cell>)
    ensures start + Paint(done + more, DEFAULT_STYLE) ==
      start + Paint(done, DEFAULT_STYLE) + Paint(more, DEFAULT_STYLE)
  {
  }

  lemma PaintNothing(parts: seq<string>, style: Style)
    ensures Paint(JoinLines(parts[..0]), style) == []
  {
    assert parts[..0] == [];
  }

  lemma PartUnbroken(source: string, index: nat)
    requires index < |SplitLines(source)|
    ensures '\n' !in TrimCr(SplitLines(source)[index])
  {
    JoinSplit(source);
    TrimUnbroken(SplitLines(source)[index]);
  }

  // ---- Building the lines ---------------------------------------------------------------------

  /** The first place of a character. */
  method Find(s: string, c: char) returns (index: Option<nat>)
    ensures index.Some? ==> index.value < |s| && s[index.value] == c && c !in s[..index.value]
    ensures index.None? ==> c !in s
  {
    var i := 0;
    while i < |s|
      invariant 0 <= i <= |s| && c !in s[..i]
    {
      if s[i] == c {
        return Some(i);
      }
      i := i + 1;
    }
    return None;
  }

  /** The lines finished so far, the spans of the current one and the open styles. */
  class LineBuilder {
    var lines: seq<Line>
    var spans: seq<Span>
    var styles: seq<Style>

    ghost function Page(): seq<Line>
      reads this
    {
      lines + [spans]
    }

    ghost predicate Valid()
      reads this
    {
      Unbroken(Texts(Page()))
    }

    constructor ()
      ensures Valid() && PageCells(Page()) == [] && styles == [DEFAULT_STYLE]
    {
      lines, spans, styles := [], [], [DEFAULT_STYLE];
    }

    method PushSpan(span: Span)
      requires Valid() && '\n' !in span.content
      modifies this`spans
      ensures Valid() && PageCells(Page()) == old(PageCells(Page())) + SpanCells(span)
    {
      SpanPushed(lines, spans, span);
      spans := spans + [span];
    }

    method BreakLine()
      requires Valid()
      modifies this`lines, this`spans
      ensures Valid() && PageCells(Page()) == old(PageCells(Page())) + [BREAK]
    {
      ghost var before := Page();
      lines := lines + [spans];
      spans := [];
      assert Page()[..|lines|] == before;
      assert Texts(Page()) == Texts(before) + [""];
    }

    /** One piece in one style; a break between its lines, carriage returns trimmed. */
    method PushSource(source: string, style: Style)
      requires Valid()
      modifies this`lines, this`spans
      ensures Valid() && PageCells(Page()) == old(PageCells(Page())) + Paint(Clean(source), style)
    {
      hide PageCells, Unbroken, Clean, SplitLines, TrimCr, JoinLines, Texts, Ink;
      ghost var start := PageCells(Page());
      var parts := SplitLines(source);
      ghost var trimmed := TrimAll(parts);
      CleanTrimsLines(source);
      PaintNothing(trimmed, style);
      for index := 0 to |parts|
        invariant Valid()
        invariant PageCells(Page()) == start + Paint(JoinLines(trimmed[..index]), style)
      {
        if index > 0 {
          BreakLine();
        }
        PartUnbroken(source, index);
        PushPart(TrimCr(parts[index]), style);
        PaintJoined(trimmed, index, style);
      }
      assert trimmed[..|parts|] == trimmed;
    }

    method PushPart(part: string, style: Style)
      requires Valid() && '\n' !in part
      modifies this`spans
      ensures Valid() && PageCells(Page()) == old(PageCells(Page())) + Paint(part, style)
    {
      hide PageCells, Unbroken;
      if style == DEFAULT_STYLE {
        PushPlainOperators(part);
      } else if part != "" {
        PushSpan(Span(part, style));
        assert SpanCells(Span(part, style)) == Paint(part, style);
      }
    }

    /** Unstyled text, with each turnstile in a span of its own. */
    method PushPlainOperators(source: string)
      requires Valid() && '\n' !in source
      modifies this`spans
      ensures Valid() && PageCells(Page()) == old(PageCells(Page())) + Paint(source, DEFAULT_STYLE)
    {
      hide PageCells, Unbroken, Texts, Ink, SpanCells;
      ghost var start := PageCells(Page());
      ghost var done := "";
      var rest := source;
      var index: Option<nat> := Find(rest, TURNSTILE);
      while index.Some?
        invariant source == done + rest && '\n' !in rest
        invariant index.Some? ==> index.value < |rest| && rest[index.value] == TURNSTILE
        invariant index.Some? ==> TURNSTILE !in rest[..index.value]
        invariant index.None? ==> TURNSTILE !in rest
        invariant Valid() && PageCells(Page()) == start + Paint(done, DEFAULT_STYLE)
        decreases |rest|
      {
        var i := index.value;
        PushUpToTurnstile(rest, i);
        PaintMore(done, rest[..i + 1], start);
        done := done + rest[..i + 1];
        rest := rest[i + 1..];
        index := Find(rest, TURNSTILE);
      }
      PaintMore(done, rest, start);
      PaintPlain(rest);
      if rest != "" {
        PushSpan(Span(rest, DEFAULT_STYLE));
      }
    }

    method PushUpToTurnstile(rest: string, i: nat)
      requires Valid() && '\n' !in rest
      requires i < |rest| && rest[i] == TURNSTILE && TURNSTILE !in rest[..i]
      modifies this`spans
      ensures Valid() && PageCells(Page()) == old(PageCells(Page())) + Paint(rest[..i + 1], DEFAULT_STYLE)
    {
      hide PageCells, Unbroken, Texts;
      PaintPlain(rest[..i]);
      if i > 0 {
        PushSpan(Span(rest[..i], DEFAULT_STYLE));
      }
      PushSpan(Span([TURNSTILE], OPERATOR_STYLE));
      assert Paint(rest[..i + 1], DEFAULT_STYLE) ==
        Paint(rest[..i], DEFAULT_STYLE) + SpanCells(Span([TURNSTILE], OPERATOR_STYLE));
    }

    /** One event after `done`: a piece is drawn in the innermost open style. */
    method Handle(source: string, ghost done: seq<Event>, event: Event)
      requires InRange(source, done + [event]) && InRange(source, done)
      requires Valid() && PageCells(Page()) == Drawn(source, done) && styles == Stack(done)
      modifies this
      ensures Valid() && PageCells(Page()) == Drawn(source, done + [event]) && styles == Stack(done + [event])
    {
      hide PageCells, Unbroken, Clean, Innermost, Texts, Ink;
      assert (done + [event])[..|done|] == done;
      match event
      case Source(start, end) =>
        StackIsOpenHighlights(done, 0);
        PushSource(source[start..end], styles[|styles| - 1]);
      case HighlightStart(style) => styles := styles + [style];
      case HighlightEnd =>
        if |styles| > 1 {
          styles := styles[..|styles| - 1];
        }
    }
  }

  /** Run the highlighter's events; without a highlighter, or when it fails on the way, the
      text is shown plain. A source without carriage returns that the events cover keeps its
      text line by line. */
  method HighlightedLean(source: string, events: Option<seq<Event>>) returns (page: seq<Line>)
    requires events.Some? ==>
      forall e :: e in events.value && e.Source? ==> e.start <= e.end <= |source|
    ensures events.None? || Failure in events.value ==> page == PlainText(source)
    ensures events.Some? && Failure !in events.value ==>
      Unbroken(Texts(page)) && PageCells(page) == Drawn(source, events.value)
    ensures '\r' !in source && events.Some? && Covers(source, events.value, 0) ==>
      JoinLines(Texts(page)) == source && Texts(page) == Texts(PlainText(source))
  {
    if events.None? {
      return PlainText(source);
    }
    hide PageCells, Unbroken, Clean, Covers, PlainText, Drawn, Stack, Texts;
    var builder := new LineBuilder();
    DrawnNothing(source);
    for i := 0 to |events.value|
      invariant InRange(source, events.value[..i])
      invariant builder.Valid() && PageCells(builder.Page()) == Drawn(source, events.value[..i])
      invariant builder.styles == Stack(events.value[..i])
    {
      var event := events.value[i];
      assert events.value[..i + 1] == events.value[..i] + [event];
      if event.Failure? {
        assert Failure in events.value;
        if Covers(source, events.value, 0) {
          CoversInRange(source, events.value, 0);
        }
        return PlainText(source);
      }
      builder.Handle(source, events.value[..i], event);
    }
    assert events.value[..|events.value|] == events.value;
    page := builder.lines + [builder.spans];
    if '\r' !in source && Covers(source, events.value, 0) {
      NothingToTrim(source, events.value, page);
    }
  }

  lemma DrawnNothing(source: string)
    ensures Drawn(source, []) == [] && Stack([]) == [DEFAULT_STYLE]
  {
  }
}
