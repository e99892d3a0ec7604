/** The values the proxy publishes to viewers. */
module Wire {
  import opened Prelude

  /** A document and the version the state was computed against. */
  datatype DocRef = DocRef(uri: string, version: int)

  datatype Position = Position(line: nat, character: nat)

  datatype Range = Range(start: Position, end: Position)

  datatype Severity = Error | Warning | Information | Hint

  datatype Diagnostic = Diagnostic(range: Range, severity: Severity, message: string, source: Option<string>)

  /** Everything a viewer renders. */
  datatype Snapshot = Snapshot(
    doc: Option<DocRef>,
    position: Option<Position>,
    goals: seq<string>,
    rendered: Option<string>,
    termGoal: Option<string>,
    inTactic: bool,
    elaborating: bool,
    diagnostics: map<string, seq<Diagnostic>>,
    progress: seq<Range>,
    seqNo: u64)

  const EMPTY_SNAPSHOT := Snapshot(None, None, [], None, None, false, false, map[], [], 0)
}
