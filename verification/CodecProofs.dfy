/** What the codec promises: frames are cut out of a stream verbatim, framing and
    reading undo each other, and a cut-off frame is never mistaken for anything else. */
module CodecProofs {
  import opened Prelude
  import opened Utf8
  import opened Codec
  import Numerals

  // ---- Canonical headers --------------------------------------------------

  /** A printed length is read back exactly when it fits 64 bits. */
  lemma ParsePrintedLength(n: nat)
    ensures ParseLength(AsciiDecimal(n)) == if n < U64_RANGE then Some(n) else None
  {
    var digits := Numerals.Digits(n, 10);
    var t: Text := AsciiDecimal(n);
    assert FigureValues(t) == digits;
    Numerals.ValueOfDigits(n, 10);
  }

  lemma TrimLineEndOf(t: Text)
    requires t != [] && t[|t| - 1] !in [10, 13]
    ensures TrimLineEnd(t + [13, 10]) == t
  {
    assert (t + [13, 10])[..|t| + 1] == t + [13];
    assert TrimLineEnd(t + [13, 10]) == TrimLineEnd(t + [13]);
    assert (t + [13])[..|t|] == t;
    assert TrimLineEnd(t + [13]) == TrimLineEnd(t);
  }

  lemma TrimKeeps(t: Text)
    requires t != [] && !Whitespace(t[0]) && !Whitespace(t[|t| - 1])
    ensures Trim(t) == t
    ensures Trim([32] + t) == t
  {
    assert ([32] + t)[1..] == t;
    assert TrimStart([32] + t) == TrimStart(t) == t;
  }

  lemma ClassifyNamedLine(value: Text)
    requires value != [] && !Whitespace(value[0]) && !Whitespace(value[|value| - 1])
    ensures
      var name: Text := CONTENT_LENGTH;
      ClassifyText(name + [58] + ([32] + value) + [13, 10]) ==
        match ParseLength(value)
        case Some(n) => Length(n)
        case None => Bad(BadLength)
  {
    hide Trim, ParseLength, SplitOnce, TrimLineEnd;
    var name: Text := CONTENT_LENGTH;
    var trimmed: Text := name + [58] + ([32] + value);
    TrimLineEndOf(trimmed);
    SplitOnceAt(name, 58, [32] + value);
    TrimKeeps(name);
    TrimKeeps(value);
  }

  lemma ClassifyLengthLine(n: nat)
    ensures Classify(LengthLine(n)) == if n < U64_RANGE then Length(n) else Bad(BadLength)
  {
    hide ClassifyText, Decode;
    var name: Text := CONTENT_LENGTH;
    var digits: Text := AsciiDecimal(n);
    var t: Text := LengthLine(n);
    DecodeAscii(LengthLine(n));
    assert t == name + [58] + ([32] + digits) + [13, 10];
    ClassifyNamedLine(digits);
    ParsePrintedLength(n);
  }

  lemma ClassifyBlankLine()
    ensures Classify([CR, LF]) == Blank && Classify([CR]) == Blank
  {
    DecodeAscii([CR, LF]);
    DecodeAscii([CR]);
    var one: Text := [13];
    var two: Text := [13, 10];
    assert one[..0] == [];
    assert two[..1] == one;
    assert TrimLineEnd(two) == TrimLineEnd(one);
  }

  lemma {:induction false} LineLengthAt(line: bytes, rest: bytes)
    requires LF !in line
    ensures LineLength(line + [LF] + rest) == |line| + 1
  {
    if line != [] {
      assert (line + [LF] + rest)[1..] == line[1..] + [LF] + rest;
      LineLengthAt(line[1..], rest);
    }
  }

  lemma {:induction false} LineLengthUnterminated(line: bytes)
    requires LF !in line
    ensures LineLength(line) == |line|
  {
    if line != [] {
      LineLengthUnterminated(line[1..]);
    }
  }

  lemma LengthLineLength(n: nat, rest: bytes)
    ensures LF !in LengthLine(n)[..|LengthLine(n)| - 1]
    ensures LineLength(LengthLine(n) + rest) == |LengthLine(n)|
  {
    var line := CONTENT_LENGTH + [COLON] + ([32] + AsciiDecimal(n) + [CR]);
    assert LengthLine(n) == line + [LF];
    LineLengthAt(line, rest);
    assert LengthLine(n)[..|LengthLine(n)| - 1] == line;
  }

  lemma ScanCanonicalHeader(n: nat, rest: bytes)
    ensures ScanHeader(CanonicalHeader(n) + rest, None) ==
      (if n < U64_RANGE then Block(|CanonicalHeader(n)|, Some(n)) else Failure(BadLength))
  {
    hide Classify, LineLength, ScanHeader;
    var line, tail := LengthLine(n), [CR, LF] + rest;
    var input := CanonicalHeader(n) + rest;
    assert input == line + tail;
    LengthLineLength(n, tail);
    assert input[..|line|] == line && input[|line|..] == tail;
    ClassifyLengthLine(n);
    ScanLine(input, None, line, tail);
    LineLengthAt([CR], rest);
    assert [CR] + [LF] + rest == tail;
    assert tail[..2] == [CR, LF] && tail[2..] == rest;
    ClassifyBlankLine();
    ScanLine(tail, Some(n), [CR, LF], rest);
  }

  /** A frame made from a body is read back, whatever follows it on the wire and
      whatever the body contains, exactly when it fits a vector. */
  lemma ReadFromBody(body: bytes, rest: bytes)
    ensures Read(FromBody(body).raw + rest) ==
      if |FromBody(body).raw| <= MAX_VECTOR then Got(FromBody(body))
      else if |body| < U64_RANGE then Failed(CapacityOverflow)
      else Failed(BadLength)
  {
    var frame := FromBody(body);
    var input := frame.raw + rest;
    assert input == CanonicalHeader(|body|) + (body + rest);
    ScanCanonicalHeader(|body|, body + rest);
    assert input[..|frame.raw|] == frame.raw;
  }

  function FromBodies(bodies: seq<bytes>): (frames: seq<Frame>)
    ensures |frames| == |bodies|
    ensures forall i :: 0 <= i < |bodies| ==> frames[i] == FromBody(bodies[i])
  {
    seq(|bodies|, i requires 0 <= i < |bodies| => FromBody(bodies[i]))
  }

  lemma WireCons(frame: Frame, frames: seq<Frame>)
    ensures Wire([frame] + frames) == frame.raw + Wire(frames)
  {
    assert Raws([frame] + frames)[1..] == Raws(frames);
  }

  /** Framing any list of bodies whose frames each fit a vector, as all that were ever built
      do, and reading the stream back gives exactly those frames and then a clean end. */
  lemma {:induction false} StreamRoundTrip(bodies: seq<bytes>)
    requires forall i :: 0 <= i < |bodies| ==> |FromBody(bodies[i]).raw| <= MAX_VECTOR
    ensures ReadAll(Wire(FromBodies(bodies))) == (FromBodies(bodies), CleanEof)
    ensures forall i :: 0 <= i < |bodies| ==> FromBodies(bodies)[i].Body() == bodies[i]
  {
    var frames := FromBodies(bodies);
    if bodies != [] {
      assert frames == [FromBody(bodies[0])] + FromBodies(bodies[1..]);
      WireCons(frames[0], FromBodies(bodies[1..]));
      ReadFromBody(bodies[0], Wire(FromBodies(bodies[1..])));
      assert Wire(frames)[|frames[0].raw|..] == Wire(FromBodies(bodies[1..]));
      StreamRoundTrip(bodies[1..]);
    }
  }

  // ---- Truncation ---------------------------------------------------------

  /** Input that ends inside its first line is an error unless that line is blank. */
  lemma ReadUnterminated(input: bytes)
    requires input != [] && LineLength(input) == |input| && !Classify(input).Blank?
    ensures Read(input).Failed?
  {
    hide Classify;
    assert input[..|input|] == input;
    assert ScanHeader(input[|input|..], None) == NoBlock;
    if Classify(input).Length? {
      assert ScanHeader(input[|input|..], Some(Classify(input).n)) == NoBlock;
    }
  }

  lemma PrefixOfLengthLineIsNotBlank(n: nat, k: nat)
    requires 0 < k <= |LengthLine(n)|
    ensures !Classify(LengthLine(n)[..k]).Blank?
  {
    var t := LengthLine(n)[..k];
    DecodeAscii(t);
    TrimLineEndKeepsHead(t);
  }

  lemma {:induction false} TrimLineEndKeepsHead(t: Text)
    requires t != [] && t[0] !in [10, 13]
    ensures TrimLineEnd(t) != []
  {
    if |t| > 1 && t[|t| - 1] in [10, 13] {
      TrimLineEndKeepsHead(t[..|t| - 1]);
    }
  }

  lemma ReadWithoutLastLineFeed(n: nat)
    ensures Read(LengthLine(n) + [CR]).Failed? <==> n != 0
    ensures !Read(LengthLine(n) + [CR]).CleanEof?
  {
    hide Classify, LineLength;
    var line := LengthLine(n);
    var input := line + [CR];
    LengthLineLength(n, [CR]);
    ClassifyLengthLine(n);
    assert input[..|line|] == line && input[|line|..] == [CR];
    ScanLine(input, None, line, [CR]);
    LineLengthUnterminated([CR]);
    ClassifyBlankLine();
    assert [CR][..1] == [CR] && [CR][1..] == [];
    ScanLine([CR], Some(n), [CR], []);
  }

  /** A canonical frame cut short anywhere is reported as an error, with one
      exception: a bodiless frame lacking only its last line feed still reads as a
      (shorter) frame. */
  lemma TruncationDetected(body: bytes, k: nat)
    requires 0 < k < |FromBody(body).raw|
    ensures Read(FromBody(body).raw[..k]).Failed? <==> !(body == [] && k == |FromBody(body).raw| - 1)
    ensures !Read(FromBody(body).raw[..k]).CleanEof?
  {
    hide Classify;
    var n := |body|;
    var line := LengthLine(n);
    var raw := FromBody(body).raw;
    var input := raw[..k];
    LengthLineLength(n, []);
    assert line + [] == line;
    if k <= |line| {
      assert input == line[..k];
      if k < |line| {
        assert LF !in input by {
          assert forall i :: 0 <= i < k ==> input[i] == line[..|line| - 1][i];
        }
        LineLengthUnterminated(input);
      }
      PrefixOfLengthLineIsNotBlank(n, k);
      ReadUnterminated(input);
    } else if k == |line| + 1 {
      assert input == line + [CR];
      ReadWithoutLastLineFeed(n);
    } else {
      var header := CanonicalHeader(n);
      assert input == header + body[..k - |header|];
      ScanCanonicalHeader(n, body[..k - |header|]);
    }
  }

  // ---- Verbatim segmentation ----------------------------------------------

  lemma {:induction false} LineLengthLocal(input: bytes, rest: bytes)
    requires 0 < LineLength(input) && input[LineLength(input) - 1] == LF
    ensures LineLength(input[..LineLength(input)] + rest) == LineLength(input)
  {
    var n := LineLength(input);
    assert input[..n] == input[..n - 1] + [LF];
    LineLengthAt(input[..n - 1], rest);
  }

  /** Whether the header block ends in a line feed; otherwise it ends the stream. */
  lemma {:induction false} HeaderIsLocal(input: bytes, length: Option<nat>, rest: bytes)
    requires ScanHeader(input, length).Block?
    ensures
      var size := ScanHeader(input, length).size;
      && (input[size - 1] == LF ==> ScanHeader(input[..size] + rest, length) == ScanHeader(input, length))
      && (input[size - 1] != LF ==> size == |input|)
    decreases |input|
  {
    hide Classify, LineLength, ScanHeader;
    var header := ScanHeader(input, length);
    var size := header.size;
    var n := LineLength(input);
    ScanLine(input, length, input[..n], input[n..]);
    if Classify(input[..n]).Blank? {
      if input[size - 1] == LF {
        LineLengthLocal(input, rest);
        assert (input[..n] + rest)[..n] == input[..n];
        ScanLine(input[..n] + rest, length, input[..n], rest);
      }
    } else {
      var seen := if Classify(input[..n]).Length? then Some(Classify(input[..n]).n) else length;
      HeaderIsLocal(input[n..], seen, rest);
      if input[size - 1] == LF {
        var tail := input[n..][..size - n] + rest;
        var again := input[..size] + rest;
        assert again == input[..n] + tail;
        LineLengthLocal(input, tail);
        assert again[..n] == input[..n] && again[n..] == tail;
        ScanLine(again, length, input[..n], tail);
      }
    }
  }

  /** What is read depends on nothing past the frame: a frame cut out of one stream is
      read back whatever follows it, or else it was the unterminated end of a stream. */
  lemma FrameIsLocal(input: bytes, rest: bytes)
    requires Read(input).Got?
    ensures
      var frame := Read(input).frame;
      Read(frame.raw + rest) == Got(frame) || (frame.raw == input && frame.bodyOffset == |input|)
  {
    hide Classify, LineLength, ScanHeader;
    var frame := Read(input).frame;
    var size := frame.bodyOffset;
    assert input[..size] + (frame.raw[size..] + rest) == frame.raw + rest;
    HeaderIsLocal(input, None, frame.raw[size..] + rest);
    if input[size - 1] == LF {
      assert (frame.raw + rest)[..|frame.raw|] == frame.raw;
    }
  }

  /** Segmentation is verbatim: the frames' bytes, put back together, are exactly the
      part of the stream before the point where reading stopped; at a clean end that
      is the whole stream. */
  lemma {:induction false} SegmentationIsVerbatim(input: bytes)
    ensures Wire(ReadAll(input).0) <= input
    ensures Read(input[|Wire(ReadAll(input).0)|..]) == ReadAll(input).1
    ensures ReadAll(input).1 == CleanEof <==> Wire(ReadAll(input).0) == input
    decreases |input|
  {
    hide Read;
    var (frames, last) := ReadAll(input);
    match Read(input)
    case Got(frame) =>
      var rest := input[|frame.raw|..];
      SegmentationIsVerbatim(rest);
      WireCons(frame, ReadAll(rest).0);
      assert input == frame.raw + rest;
      assert input[|Wire(frames)|..] == rest[|Wire(ReadAll(rest).0)|..];
    case _ =>
      assert frames == [];
      assert input[0..] == input;
      CleanOnlyAtEnd(input);
  }

  lemma CleanOnlyAtEnd(input: bytes)
    ensures Read(input) == CleanEof <==> input == []
  {
  }

  /** Writing the frames of any stream back out and reading that gives the same frames
      and a clean end, whatever headers they carried and in whatever order. */
  lemma {:induction false} ReparseGivesSameFrames(input: bytes)
    ensures ReadAll(Wire(ReadAll(input).0)) == (ReadAll(input).0, CleanEof)
    decreases |input|
  {
    match Read(input)
    case Got(frame) =>
      var rest := input[|frame.raw|..];
      var frames := ReadAll(rest).0;
      ReparseGivesSameFrames(rest);
      WireCons(frame, frames);
      FrameIsLocal(input, Wire(frames));
      if frame.raw == input {
        assert rest == [] && frames == [];
        assert frame.raw + Wire(frames) == input;
      }
      assert (frame.raw + Wire(frames))[|frame.raw|..] == Wire(frames);
    case _ =>
  }

  // ---- The last length wins -----------------------------------------------

  /** The lines of a header block, each with its terminator. */
  function Lines(block: bytes): seq<bytes>
    decreases |block|
  {
    if block == [] then []
    else [block[..LineLength(block)]] + Lines(block[LineLength(block)..])
  }

  /** `n` is the length the last length line of `lines` gives, if there is one. */
  predicate LastLength(lines: seq<bytes>, n: Option<nat>) {
    match n
    case None => forall i :: 0 <= i < |lines| ==> !Classify(lines[i]).Length?
    case Some(v) =>
      exists i :: 0 <= i < |lines| && Classify(lines[i]) == Length(v)
        && forall j :: i < j < |lines| ==> !Classify(lines[j]).Length?
  }

  /** Lengths and other headers, then the one blank line. */
  predicate WellFormedBlock(lines: seq<bytes>) {
    && lines != []
    && Classify(lines[|lines| - 1]).Blank?
    && forall i :: 0 <= i < |lines| - 1 ==> Classify(lines[i]).Length? || Classify(lines[i]).Other?
  }

  /** `n` is the last length in `lines`, or `before` when they give none. */
  predicate LengthAfter(lines: seq<bytes>, before: Option<nat>, n: Option<nat>) {
    if LastLength(lines, None) then n == before else LastLength(lines, n)
  }

  lemma BlockCons(line: bytes, tail: seq<bytes>, before: Option<nat>, n: Option<nat>)
    requires WellFormedBlock(tail)
    requires Classify(line).Length? || Classify(line).Other?
    requires LengthAfter(tail, if Classify(line).Length? then Some(Classify(line).n) else before, n)
    ensures WellFormedBlock([line] + tail) && LengthAfter([line] + tail, before, n)
  {
    hide Classify;
    var lines := [line] + tail;
    assert lines[0] == line;
    assert forall j :: 0 < j < |lines| ==> lines[j] == tail[j - 1];
    LastLengthCons(line, tail, n);
    NoLengthInTail(line, tail);
  }

  lemma NoLengthInTail(line: bytes, tail: seq<bytes>)
    ensures LastLength([line] + tail, None) ==> LastLength(tail, None) && !Classify(line).Length?
  {
    hide Classify;
    var lines := [line] + tail;
    assert lines[0] == line && forall i :: 0 <= i < |tail| ==> lines[i + 1] == tail[i];
  }

  lemma LastLengthCons(line: bytes, tail: seq<bytes>, n: Option<nat>)
    ensures LastLength(tail, n) ==> n.Some? || !Classify(line).Length? ==> LastLength([line] + tail, n)
    ensures LastLength(tail, None) && Classify(line).Length? ==> LastLength([line] + tail, Some(Classify(line).n))
  {
    hide Classify;
    var lines := [line] + tail;
    assert lines[0] == line;
    assert forall j :: 0 < j < |lines| ==> lines[j] == tail[j - 1];
    if LastLength(tail, n) && n.Some? {
      var i :| 0 <= i < |tail| && Classify(tail[i]) == Length(n.value)
        && forall j :: i < j < |tail| ==> !Classify(tail[j]).Length?;
      assert lines[i + 1] == tail[i];
    }
  }

  lemma {:induction false} HeaderLines(input: bytes, length: Option<nat>)
    requires ScanHeader(input, length).Block?
    ensures
      var header := ScanHeader(input, length);
      var lines := Lines(input[..header.size]);
      WellFormedBlock(lines) && LengthAfter(lines, length, header.length)
    decreases |input|
  {
    hide Classify, LineLength, ScanHeader;
    var header := ScanHeader(input, length);
    var n := LineLength(input);
    var block := input[..header.size];
    ScanLine(input, length, input[..n], input[n..]);
    FirstLineOfPrefix(input, header.size);
    assert block[..n] == input[..n];
    if Classify(input[..n]).Blank? {
      assert block[n..] == [];
      assert Lines(block) == [block];
    } else {
      hide WellFormedBlock, LengthAfter;
      var seen := if Classify(input[..n]).Length? then Some(Classify(input[..n]).n) else length;
      HeaderLines(input[n..], seen);
      assert block[n..] == input[n..][..header.size - n];
      assert Lines(block) == [input[..n]] + Lines(block[n..]);
      BlockCons(input[..n], Lines(block[n..]), length, header.length);
    }
  }

  lemma FirstLineOfPrefix(input: bytes, size: nat)
    requires LineLength(input) <= size <= |input| && input != []
    ensures LineLength(input[..size]) == LineLength(input)
  {
    hide LineLength;
    var n := LineLength(input);
    if input[n - 1] == LF {
      LineLengthLocal(input, input[n..size]);
      assert input[..n] + input[n..size] == input[..size];
    } else {
      assert input[..size] == input;
    }
  }

  /** Every frame read has a header block of well-formed lines ended by the only blank
      one, and its body is as long as the last `Content-Length` among them says. */
  lemma BodyLengthIsLastLength(input: bytes)
    requires Read(input).Got?
    ensures
      var frame := Read(input).frame;
      var lines := Lines(frame.raw[..frame.bodyOffset]);
      WellFormedBlock(lines) && LastLength(lines, Some(|frame.Body()|))
  {
    var frame := Read(input).frame;
    HeaderLines(input, None);
    assert frame.raw[..frame.bodyOffset] == input[..frame.bodyOffset];
  }

  // ---- Every outcome ------------------------------------------------------

  /** The `k`-th line is the first that ends the header, well or badly. */
  predicate FirstStop(lines: seq<bytes>, k: nat) {
    && k <= |lines|
    && (forall i :: 0 <= i < k ==> Classify(lines[i]).Length? || Classify(lines[i]).Other?)
    && (k < |lines| ==> Classify(lines[k]).Blank? || Classify(lines[k]).Bad?)
  }

  /** What scanning comes to when the header stops at the `k`-th line. */
  predicate ScanOutcome(lines: seq<bytes>, k: nat, before: Option<nat>, header: Header)
    requires FirstStop(lines, k)
  {
    if k == |lines| then header == NoBlock
    else
      match Classify(lines[k])
      case Bad(error) => header == Failure(error)
      case _ =>
        && header.Block?
        && header.size == |Flatten(lines[..k + 1])|
        && LengthAfter(lines[..k], before, header.length)
  }

  lemma StopCons(line: bytes, tail: seq<bytes>, k: nat, before: Option<nat>, header: Header)
    requires Classify(line).Length? || Classify(line).Other?
    requires FirstStop(tail, k)
    requires ScanOutcome(tail, k, if Classify(line).Length? then Some(Classify(line).n) else before, header)
    ensures FirstStop([line] + tail, k + 1)
    ensures ScanOutcome([line] + tail, k + 1, before, Shift(header, |line|))
  {
    hide Classify;
    var lines := [line] + tail;
    assert forall i :: 0 <= i < |tail| ==> lines[i + 1] == tail[i];
    if k < |tail| && header.Block? {
      assert lines[..k + 1] == [line] + tail[..k];
      assert lines[..k + 2] == [line] + tail[..k + 1];
      assert lines[..k + 2][1..] == tail[..k + 1];
      LastLengthCons(line, tail[..k], header.length);
      NoLengthInTail(line, tail[..k]);
      if LastLength(tail[..k], None) && header.length == before && Classify(line).Other? {
        NoLengthCons(line, tail[..k]);
      }
    }
  }

  lemma NoLengthCons(line: bytes, tail: seq<bytes>)
    requires LastLength(tail, None) && !Classify(line).Length?
    ensures LastLength([line] + tail, None)
  {
    hide Classify;
  }

  lemma StopTail(line: bytes, tail: seq<bytes>, k: nat)
    requires FirstStop([line] + tail, k)
    ensures k == 0 ==> Classify(line).Blank? || Classify(line).Bad?
    ensures k > 0 ==> (Classify(line).Length? || Classify(line).Other?) && FirstStop(tail, k - 1)
  {
    hide Classify;
    var lines := [line] + tail;
    assert lines[0] == line && forall i :: 0 <= i < |tail| ==> lines[i + 1] == tail[i];
  }

  lemma StopAtOnce(line: bytes, tail: seq<bytes>, before: Option<nat>, header: Header)
    requires FirstStop([line] + tail, 0)
    requires Classify(line).Blank? ==> header == Block(|line|, before)
    requires Classify(line).Bad? ==> header == Failure(Classify(line).error)
    ensures ScanOutcome([line] + tail, 0, before, header)
  {
    hide Classify;
    var lines := [line] + tail;
    assert lines[..1] == [line] && Flatten([line]) == line + Flatten([line][1..]) == line;
    assert lines[..0] == [];
  }

  lemma LinesUnfold(input: bytes)
    ensures Lines(input) ==
      if input == [] then [] else [input[..LineLength(input)]] + Lines(input[LineLength(input)..])
  {
  }

  lemma NothingStops(k: nat, length: Option<nat>)
    requires FirstStop([], k)
    ensures ScanOutcome([], k, length, NoBlock)
  {
  }

  lemma {:induction false} ScanDecides(input: bytes, length: Option<nat>, k: nat)
    requires FirstStop(Lines(input), k)
    ensures ScanOutcome(Lines(input), k, length, ScanHeader(input, length))
    decreases |input|
  {
    hide Classify, LineLength, ScanHeader, Lines, FirstStop, ScanOutcome;
    LinesUnfold(input);
    if input == [] {
      ScanNothing(length);
      NothingStops(k, length);
    } else {
      var line, rest := input[..LineLength(input)], input[LineLength(input)..];
      ScanLine(input, length, line, rest);
      StopTail(line, Lines(rest), k);
      if k == 0 {
        StopAtOnce(line, Lines(rest), length, ScanHeader(input, length));
      } else {
        var seen := if Classify(line).Length? then Some(Classify(line).n) else length;
        ScanDecides(rest, seen, k - 1);
        StopCons(line, Lines(rest), k - 1, length, ScanHeader(rest, seen));
      }
    }
  }

  /** Every outcome, in terms of the lines of the input: nothing left is a clean end; no line
      that ends the header is an end of input in the header; a bad line is its error; and
      after a blank line, with the header as long as the lines up to it, the last length
      before it decides between a missing length, one no vector can hold, a body cut short,
      and a frame of exactly that many bytes. */
  lemma ReadDecides(input: bytes) returns (k: nat, length: Option<nat>)
    ensures FirstStop(Lines(input), k)
    ensures LengthAfter(Lines(input)[..k], None, length)
    ensures
      var lines := Lines(input);
      Read(input) ==
        if k == |lines| then (if input == [] then CleanEof else Failed(EofInHeader))
        else if Classify(lines[k]).Bad? then Failed(Classify(lines[k]).error)
        else if length.None? then Failed(MissingLength)
        else
          var size := |Flatten(lines[..k + 1])|;
          if size + length.value > MAX_VECTOR then Failed(CapacityOverflow)
          else if |input| < size + length.value then Failed(EofInBody)
          else Got(Frame(input[..size + length.value], size))
  {
    hide Classify, LineLength, ScanHeader;
    k := SomeStop(Lines(input));
    ScanDecides(input, None, k);
    assert k <= |Lines(input)|;
    hide FirstStop;
    hide Lines;
    var header := ScanHeader(input, None);
    if header.Block? {
      length := header.length;
    } else {
      length := SomeLength(Lines(input)[..k]);
    }
  }

  lemma {:induction false} SomeStop(lines: seq<bytes>) returns (k: nat)
    ensures FirstStop(lines, k)
  {
    hide Classify;
    if lines == [] || Classify(lines[0]).Blank? || Classify(lines[0]).Bad? {
      k := 0;
    } else {
      k := SomeStop(lines[1..]);
      assert forall i :: 0 < i < |lines| ==> lines[i] == lines[1..][i - 1];
      k := k + 1;
    }
  }

  /** The last length among lines, whatever they are. */
  lemma {:induction false} SomeLength(lines: seq<bytes>) returns (length: Option<nat>)
    ensures LengthAfter(lines, None, length)
  {
    hide Classify;
    if lines == [] {
      length := None;
    } else {
      var line, tail := lines[0], lines[1..];
      assert lines == [line] + tail;
      length := SomeLength(tail);
      LastLengthCons(line, tail, length);
      NoLengthInTail(line, tail);
      if LastLength(tail, None) {
        if Classify(line).Length? {
          length := Some(Classify(line).n);
        } else {
          NoLengthCons(line, tail);
        }
      }
    }
  }

  /** A frame made from a body carries one header, its length, and the blank line. */
  lemma FromBodyIsCanonical(body: bytes)
    ensures
      var frame := FromBody(body);
      && Lines(frame.raw[..frame.bodyOffset])
         == [CONTENT_LENGTH + [COLON, 32] + AsciiDecimal(|body|) + [CR, LF], [CR, LF]]
      && frame.Body() == body
  {
    hide LineLength;
    var line := LengthLine(|body|);
    var header := line + [CR, LF];
    assert FromBody(body).raw[..FromBody(body).bodyOffset] == header;
    assert line == CONTENT_LENGTH + [COLON, 32] + AsciiDecimal(|body|) + [CR, LF];
    LengthLineLength(|body|, [CR, LF]);
    assert header[..|line|] == line && header[|line|..] == [CR, LF];
    LineLengthAt([CR], []);
    assert [CR] + [LF] + [] == [CR, LF];
    assert [CR, LF][..2] == [CR, LF] && [CR, LF][2..] == [];
    assert Lines([CR, LF]) == [[CR, LF]] + Lines([]);
  }
}
