/** `Content-Length` framing: the reader that cuts a byte stream into frames and the
    writer that frames a body. Implements the Header Part of the Base Protocol of
    the Language Server Protocol 3.17, with the reader's own leniency. */
module Codec {
  import opened Prelude
  import opened Utf8
  import Numerals

  const CR: byte := 13
  const LF: byte := 10
  const COLON: byte := 58
  const PLUS: nat := 43

  /** "Content-Length" */
  const CONTENT_LENGTH: bytes := [67, 111, 110, 116, 101, 110, 116, 45, 76, 101, 110, 103, 116, 104]

  /** One frame: its complete bytes and where the body starts in them. */
  datatype Frame = Frame(raw: bytes, bodyOffset: nat) {
    predicate Valid() { bodyOffset <= |raw| }

    function Body(): bytes
      requires Valid()
    {
      raw[bodyOffset..]
    }
  }

  /** The decimal numeral of `n` in ASCII. */
  function AsciiDecimal(n: nat): (s: bytes)
    ensures |s| >= 1
    ensures forall i :: 0 <= i < |s| ==> 48 <= s[i] <= 57
  {
    var digits := Numerals.Digits(n, 10);
    seq(|digits|, i requires 0 <= i < |digits| => digits[i] + 48)
  }

  /** The header line announcing a body of `n` bytes. */
  function LengthLine(n: nat): bytes {
    CONTENT_LENGTH + [COLON] + ([32] + AsciiDecimal(n) + [CR, LF])
  }

  function CanonicalHeader(n: nat): bytes { LengthLine(n) + [CR, LF] }

  /** Frame a body with a single canonical header. */
  function FromBody(body: bytes): (frame: Frame)
    ensures frame.Valid() && frame.Body() == body
  {
    var header := CanonicalHeader(|body|);
    Frame(header + body, |header|)
  }

  datatype ReadError =
    | EofInHeader
    | EofInBody
    | InvalidUtf8
    | MalformedLine
    | BadLength
    | MissingLength
    | CapacityOverflow

  /** No vector holds more bytes than a signed 64-bit integer counts: growing one further
      panics, and so does slicing one whose new length wrapped around. */
  const MAX_VECTOR: nat := 0x7fff_ffff_ffff_ffff

  /** What one header line is: the blank line that ends the block, a length, some
      other header, or an error. */
  datatype Line = Blank | Length(n: nat) | Other | Bad(error: ReadError)

  /** Without the plus sign a number may begin with. */
  function Unsigned(t: Text): Text { if t != [] && t[0] == PLUS then t[1..] else t }

  predicate AllFigures(t: Text) { forall i :: 0 <= i < |t| ==> 48 <= t[i] <= 57 }

  function FigureValues(t: Text): (digits: seq<nat>)
    requires AllFigures(t)
    ensures |digits| == |t|
    ensures forall i :: 0 <= i < |t| ==> digits[i] == t[i] - 48
  {
    seq(|t|, i requires 0 <= i < |t| => t[i] - 48)
  }

  /** Reading an unsigned 64-bit decimal: an optional plus sign, at least one digit,
      nothing else, and no overflow. */
  function ParseLength(t: Text): Option<nat> {
    var figures := Unsigned(t);
    if figures != [] && AllFigures(figures) then
      var n := Numerals.Value(FigureValues(figures), 10);
      if n < U64_RANGE then Some(n) else None
    else None
  }

  function ClassifyText(t: Text): Line {
    var trimmed := TrimLineEnd(t);
    if trimmed == [] then Blank
    else
      match SplitOnce(trimmed, COLON)
      case None => Bad(MalformedLine)
      case Some((name, value)) =>
        if EqIgnoreAsciiCase(Trim(name), CONTENT_LENGTH) then
          match ParseLength(Trim(value))
          case Some(n) => Length(n)
          case None => Bad(BadLength)
        else Other
  }

  function Classify(line: bytes): Line {
    match Decode(line)
    case None => Bad(InvalidUtf8)
    case Some(t) => ClassifyText(t)
  }

  /** How many bytes a line read consumes: up to and including the first line feed,
      or everything when there is none. */
  function LineLength(input: bytes): (n: nat)
    ensures n <= |input|
    ensures input != [] ==> n > 0
    ensures forall i :: 0 <= i < n - 1 ==> input[i] != LF
    ensures 0 < n < |input| ==> input[n - 1] == LF
  {
    if input == [] then 0 else if input[0] == LF then 1 else 1 + LineLength(input[1..])
  }

  /** The outcome of reading header lines: the size of the block and the last length
      seen, the end of the input before the block ended, or an error. */
  datatype Header = Block(size: nat, length: Option<nat>) | NoBlock | Failure(error: ReadError)

  function Shift(header: Header, n: nat): Header {
    match header
    case Block(size, length) => Block(n + size, length)
    case _ => header
  }

  /** Read header lines until a blank one, starting with `length` already seen. */
  function ScanHeader(input: bytes, length: Option<nat>): (header: Header)
    ensures header.Block? ==> 0 < header.size <= |input|
    decreases |input|
  {
    var n := LineLength(input);
    if n == 0 then NoBlock
    else
      match Classify(input[..n])
      case Blank => Block(n, length)
      case Length(v) => Shift(ScanHeader(input[n..], Some(v)), n)
      case Other => Shift(ScanHeader(input[n..], length), n)
      case Bad(error) => Failure(error)
  }

  datatype Outcome = CleanEof | Got(frame: Frame) | Failed(error: ReadError)

  /** Read one frame from the head of `input`. */
  function Read(input: bytes): (outcome: Outcome)
    ensures outcome.Got? ==>
      var f := outcome.frame;
      f.Valid() && 0 < f.bodyOffset && f.raw <= input
  {
    match ScanHeader(input, None)
    case NoBlock => if input == [] then CleanEof else Failed(EofInHeader)
    case Failure(error) => Failed(error)
    case Block(_, None) => Failed(MissingLength)
    case Block(size, Some(n)) =>
      if size + n > MAX_VECTOR then Failed(CapacityOverflow)
      else if |input| - size < n then Failed(EofInBody)
      else Got(Frame(input[..size + n], size))
  }

  /** Read frames until the stream ends or an error stops the reader. */
  function ReadAll(input: bytes): (r: (seq<Frame>, Outcome))
    ensures !r.1.Got?
    decreases |input|
  {
    match Read(input)
    case Got(frame) =>
      var (frames, last) := ReadAll(input[|frame.raw|..]);
      ([frame] + frames, last)
    case last => ([], last)
  }

  function Raws(frames: seq<Frame>): (r: seq<bytes>)
    ensures |r| == |frames|
    ensures forall i :: 0 <= i < |r| ==> r[i] == frames[i].raw
  {
    seq(|frames|, i requires 0 <= i < |frames| => frames[i].raw)
  }

  /** The bytes of several frames, back to back. */
  function Wire(frames: seq<Frame>): bytes { Flatten(Raws(frames)) }

  /** A byte stream being read; `rest` is what has not been consumed yet. */
  class Reader {
    var rest: bytes

    constructor (input: bytes)
      ensures rest == input
    {
      rest := input;
    }

    /** Consume one line, including its line feed if it has one. */
    method ReadLine() returns (line: bytes)
      modifies this
      ensures line == old(rest)[..LineLength(old(rest))]
      ensures rest == old(rest)[LineLength(old(rest))..]
    {
      var n := 0;
      while n < |rest| && (n == 0 || rest[n - 1] != LF)
        invariant 0 <= n <= |rest|
        invariant n <= LineLength(rest)
        invariant n > 0 && rest[n - 1] == LF ==> n == LineLength(rest)
      {
        n := n + 1;
      }
      line := rest[..n];
      rest := rest[n..];
    }

    /** Consume exactly `n` bytes, or report that the stream ended first. */
    method ReadExact(n: nat) returns (body: Option<bytes>)
      modifies this
      ensures body.Some? <==> n <= |old(rest)|
      ensures body.Some? ==> body.value == old(rest)[..n] && rest == old(rest)[n..]
    {
      if n <= |rest| {
        body := Some(rest[..n]);
        rest := rest[n..];
      } else {
        body := None;
        rest := [];
      }
    }
  }

  /** One header line: what scanning the input comes to once `line` is consumed. */
  lemma ScanLine(input: bytes, length: Option<nat>, line: bytes, rest: bytes)
    requires input != [] && line == input[..LineLength(input)] && rest == input[LineLength(input)..]
    ensures Classify(line).Blank? ==> ScanHeader(input, length) == Block(|line|, length)
    ensures Classify(line).Length? ==>
      ScanHeader(input, length) == Shift(ScanHeader(rest, Some(Classify(line).n)), |line|)
    ensures Classify(line).Other? ==> ScanHeader(input, length) == Shift(ScanHeader(rest, length), |line|)
    ensures Classify(line).Bad? ==> ScanHeader(input, length) == Failure(Classify(line).error)
  {
  }

  lemma ScanNothing(length: Option<nat>)
    ensures ScanHeader([], length) == NoBlock
  {
  }

  /** The scan of `input` after `read` bytes of lines, one line further on. */
  lemma ScanOnwards(input: bytes, read: nat, before: bytes, length: Option<nat>, line: bytes, rest: bytes)
    requires before != [] && line == before[..LineLength(before)] && rest == before[LineLength(before)..]
    requires ScanHeader(input, None) == Shift(ScanHeader(before, length), read)
    ensures Classify(line).Blank? ==> ScanHeader(input, None) == Block(read + |line|, length)
    ensures Classify(line).Length? ==>
      ScanHeader(input, None) == Shift(ScanHeader(rest, Some(Classify(line).n)), read + |line|)
    ensures Classify(line).Other? ==> ScanHeader(input, None) == Shift(ScanHeader(rest, length), read + |line|)
    ensures Classify(line).Bad? ==> ScanHeader(input, None) == Failure(Classify(line).error)
  {
    hide Classify, LineLength, ScanHeader;
    ScanLine(before, length, line, rest);
  }

  /** Consume the header block: the loop over header lines, remembering the lines and
      the last length among them. */
  method ReadHeader(reader: Reader) returns (header: Header, raw: bytes)
    modifies reader
    ensures header == ScanHeader(old(reader.rest), None)
    ensures raw + reader.rest == old(reader.rest)
    ensures header.Block? ==> |raw| == header.size
    ensures header.NoBlock? ==> reader.rest == []
  {
    hide Classify, LineLength, ScanHeader;
    ghost var input := reader.rest;
    raw := [];
    var contentLength: Option<nat> := None;
    while true
      invariant raw + reader.rest == input
      invariant ScanHeader(input, None) == Shift(ScanHeader(reader.rest, contentLength), |raw|)
      decreases |reader.rest|
    {
      ghost var before := reader.rest;
      var line := reader.ReadLine();
      if line == [] {
        ScanNothing(contentLength);
        return NoBlock, raw;
      }
      ScanOnwards(input, |raw|, before, contentLength, line, reader.rest);
      assert before == line + reader.rest;
      raw := raw + line;
      match Classify(line) {
        case Blank => return Block(|raw|, contentLength), raw;
        case Length(n) => contentLength := Some(n);
        case Other =>
        case Bad(error) => return Failure(error), raw;
      }
    }
  }

  /** Read one frame: the header block, then exactly the announced number of bytes. */
  method ReadFrame(reader: Reader) returns (outcome: Outcome)
    modifies reader
    ensures outcome == Read(old(reader.rest))
    ensures outcome.Got? ==> outcome.frame.raw + reader.rest == old(reader.rest)
  {
    hide Classify, LineLength, ScanHeader;
    ghost var input := reader.rest;
    var header, raw := ReadHeader(reader);
    match header {
      case NoBlock =>
        return if raw == [] then CleanEof else Failed(EofInHeader);
      case Failure(error) =>
        return Failed(error);
      case Block(bodyOffset, None) =>
        return Failed(MissingLength);
      case Block(bodyOffset, Some(n)) =>
        if bodyOffset > MAX_VECTOR - n {
          return Failed(CapacityOverflow);
        }
        var body := reader.ReadExact(n);
        if body.None? {
          return Failed(EofInBody);
        }
        raw := raw + body.value;
        assert raw + reader.rest == input;
        assert input[..|raw|] == raw;
        return Got(Frame(raw, bodyOffset));
    }
  }
}
