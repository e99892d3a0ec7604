/** Diagnostics and progress notifications keep flowing to the editor; a copy of each
    is folded into the snapshot. */
module Tee {
  import opened Prelude
  import opened Wire
  import opened Json
  import opened StateStore
  import Envelope

  const PUBLISH_DIAGNOSTICS := "textDocument/publishDiagnostics"
  const FILE_PROGRESS := "$/lean/fileProgress"

  function SeverityFromLsp(n: Option<int>): Severity {
    match n
    case Some(k) => if k == 2 then Warning else if k == 3 then Information else if k == 4 then Hint else Error
    case None => Error
  }

  /** A diagnostic needs a range and a message; anything else about it is optional. */
  function ParseDiagnostic(value: Json): Option<Diagnostic> {
    var v := Some(value);
    match (ParseRange(Field(v, "range")), AsStr(Field(v, "message")))
    case (Some(range), Some(message)) =>
      Some(Diagnostic(range, SeverityFromLsp(AsI64(Field(v, "severity"))), message, AsStr(Field(v, "source"))))
    case _ => None
  }

  /** The parsable diagnostics of a list, in order. */
  function ParseDiagnostics(items: seq<Json>): seq<Diagnostic> {
    if items == [] then []
    else
      var rest := ParseDiagnostics(items[1..]);
      match ParseDiagnostic(items[0])
      case Some(d) => [d] + rest
      case None => rest
  }

  function ParseRanges(items: seq<Json>): seq<Range> {
    if items == [] then []
    else
      var rest := ParseRanges(items[1..]);
      match ParseRange(Field(Some(items[0]), "range"))
      case Some(r) => [r] + rest
      case None => rest
  }

  function ItemsOf(value: Option<Json>): seq<Json> {
    match AsArr(value)
    case Some(items) => items
    case None => []
  }

  /** What a diagnostics body folds to; nothing without params and a string uri. */
  function DiagnosticsUpdate(value: Option<Json>): Option<Update> {
    var params := Field(value, "params");
    match AsStr(Field(params, "uri"))
    case Some(uri) => Some(SetDiagnostics(uri, ParseDiagnostics(ItemsOf(Field(params, "diagnostics")))))
    case None => None
  }

  /** What a progress body folds to; nothing without params. */
  function ProgressUpdate(value: Option<Json>): Option<Update> {
    match Field(value, "params")
    case None => None
    case Some(params) => Some(SetProgress(ParseRanges(ItemsOf(Field(Some(params), "processing")))))
  }

  /** What forwarding a body folds into the snapshot. */
  function TeeUpdate(value: Option<Json>): (u: Option<Update>)
    ensures u.Some? ==> u.value.SetDiagnostics? || u.value.SetProgress?
  {
    match Envelope.MethodOf(value)
    case Some(m) =>
      if m == PUBLISH_DIAGNOSTICS then DiagnosticsUpdate(value)
      else if m == FILE_PROGRESS then ProgressUpdate(value)
      else None
    case None => None
  }

  function ToList(u: Option<Update>): seq<Update> {
    match u
    case Some(v) => [v]
    case None => []
  }

  // ---- What is folded in, field by field ---------------------------------------------

  /** Exactly what one item of a diagnostics list gives: its range and message as they are,
      the severity its number stands for, an error for any other or none, and its source if
      that is a string. Without a range or a message it gives nothing. */
  lemma DiagnosticsExactly(item: Json, d: Diagnostic)
    ensures
      var severity, source := Field(Some(item), "severity"), Field(Some(item), "source");
      var range := Field(Some(item), "range");
      ParseDiagnostic(item) == Some(d) <==>
        && AtPosition(Field(range, "start"), d.range.start) && AtPosition(Field(range, "end"), d.range.end)
        && Field(Some(item), "message") == Some(Str(d.message))
        && (d.severity == Warning <==> severity == Some(Num(2)))
        && (d.severity == Information <==> severity == Some(Num(3)))
        && (d.severity == Hint <==> severity == Some(Num(4)))
        && (if d.source.Some? then source == Some(Str(d.source.value)) else source.None? || !source.value.Str?)
  {
    RangesExactly(Field(Some(item), "range"), d.range);
    hide ParseRange, AtPosition;
  }

  lemma {:induction false} DiagnosticsAppend(a: seq<Json>, b: seq<Json>)
    ensures ParseDiagnostics(a + b) == ParseDiagnostics(a) + ParseDiagnostics(b)
  {
    hide ParseDiagnostic;
    if a == [] {
      assert a + b == b;
    } else {
      assert (a + b)[1..] == a[1..] + b;
      DiagnosticsAppend(a[1..], b);
    }
  }

  lemma {:induction false} RangesAppend(a: seq<Json>, b: seq<Json>)
    ensures ParseRanges(a + b) == ParseRanges(a) + ParseRanges(b)
  {
    hide ParseRange;
    if a == [] {
      assert a + b == b;
    } else {
      assert (a + b)[1..] == a[1..] + b;
      RangesAppend(a[1..], b);
    }
  }

  lemma OneItem(item: Json)
    ensures ParseDiagnostics([item]) == if ParseDiagnostic(item).Some? then [ParseDiagnostic(item).value] else []
    ensures ParseRanges([item]) ==
      if ParseRange(Field(Some(item), "range")).Some? then [ParseRange(Field(Some(item), "range")).value] else []
  {
    hide ParseDiagnostic, ParseRange;
    assert [item][1..] == [];
    assert ParseDiagnostics([]) == [] && ParseRanges([]) == [];
  }

  /** Every item counts, in its place: it adds the diagnostic, or the range, it gives, or
      nothing if it gives none. */
  lemma ItemsInOrder(before: seq<Json>, item: Json, after: seq<Json>)
    ensures ParseDiagnostics(before + [item] + after) ==
      ParseDiagnostics(before)
      + (if ParseDiagnostic(item).Some? then [ParseDiagnostic(item).value] else [])
      + ParseDiagnostics(after)
    ensures ParseRanges(before + [item] + after) ==
      ParseRanges(before)
      + (if ParseRange(Field(Some(item), "range")).Some? then [ParseRange(Field(Some(item), "range")).value] else [])
      + ParseRanges(after)
    ensures ParseDiagnostics([]) == [] && ParseRanges([]) == []
  {
    OneItem(item);
    DiagnosticsAppend(before, [item]);
    DiagnosticsAppend(before + [item], after);
    RangesAppend(before, [item]);
    RangesAppend(before + [item], after);
  }

  /** The items of a list; anything but a list has none. */
  function ListOf(value: Option<Json>): seq<Json> {
    match value
    case Some(Arr(items)) => items
    case _ => []
  }

  /** Exactly which bodies fold in what: a diagnostics notification with a string uri the
      diagnostics of its list under that uri, a progress notification with params the ranges
      of its list, and no other body anything. */
  lemma FoldsExactly(value: Option<Json>, uri: string, diagnostics: seq<Diagnostic>, ranges: seq<Range>)
    ensures
      var params := Field(value, "params");
      && (TeeUpdate(value) == Some(SetDiagnostics(uri, diagnostics)) <==>
            && Field(value, "method") == Some(Str("textDocument/publishDiagnostics"))
            && Field(params, "uri") == Some(Str(uri))
            && diagnostics == ParseDiagnostics(ListOf(Field(params, "diagnostics"))))
      && (TeeUpdate(value) == Some(SetProgress(ranges)) <==>
            && Field(value, "method") == Some(Str("$/lean/fileProgress"))
            && params.Some?
            && ranges == ParseRanges(ListOf(Field(params, "processing"))))
  {
    hide ParseDiagnostics, ParseRanges;
  }

  method ApplyDiagnostics(state: StateHandle, value: Option<Json>)
    requires state.Valid()
    modifies state
    ensures state.Valid() && state.log == old(state.log) + ToList(DiagnosticsUpdate(value))
  {
    var params := Field(value, "params");
    var uri := AsStr(Field(params, "uri"));
    if uri.None? {
      return;
    }
    var diagnostics := ParseDiagnostics(ItemsOf(Field(params, "diagnostics")));
    state.Update(SetDiagnostics(uri.value, diagnostics));
  }

  method ApplyProgress(state: StateHandle, value: Option<Json>)
    requires state.Valid()
    modifies state
    ensures state.Valid() && state.log == old(state.log) + ToList(ProgressUpdate(value))
  {
    var params := Field(value, "params");
    if params.None? {
      return;
    }
    var ranges := ParseRanges(ItemsOf(Field(params, "processing")));
    state.Update(SetProgress(ranges));
  }

  /** Fold a forwarded body into the snapshot. */
  method Apply(state: StateHandle, value: Option<Json>)
    requires state.Valid()
    modifies state
    ensures state.Valid() && state.log == old(state.log) + ToList(TeeUpdate(value))
  {
    match Envelope.MethodOf(value) {
      case Some(m) =>
        if m == PUBLISH_DIAGNOSTICS {
          ApplyDiagnostics(state, value);
        } else if m == FILE_PROGRESS {
          ApplyProgress(state, value);
        }
      case None =>
    }
  }
}
