/** The authoritative snapshot and the updates folded into it. */
module StateStore {
  import opened Prelude
  import opened Wire

  /** The mutations the proxy applies to the snapshot. */
  datatype Update =
    | SetGoal(doc: DocRef, position: Position, inTactic: bool, goals: seq<string>, rendered: Option<string>)
    | SetTerm(doc: DocRef, position: Position, term: Option<string>)
    | SetDiagnostics(uri: string, diagnostics: seq<Diagnostic>)
    | SetProgress(ranges: seq<Range>)

  function Apply(u: Update, s: Snapshot): Snapshot {
    match u
    case SetGoal(doc, position, inTactic, goals, rendered) =>
      s.(doc := Some(doc), position := Some(position), inTactic := inTactic, goals := goals, rendered := rendered)
    case SetTerm(doc, position, term) =>
      s.(doc := Some(doc), position := Some(position), termGoal := term)
    case SetDiagnostics(uri, diagnostics) =>
      s.(diagnostics := s.diagnostics[uri := diagnostics])
    case SetProgress(ranges) =>
      s.(progress := ranges, elaborating := ranges != [])
  }

  /** Apply an update and count it; the counter is 64 bits wide. */
  function Publish(s: Snapshot, u: Update): Snapshot {
    var t := Apply(u, s);
    t.(seqNo := Increment(t.seqNo))
  }

  /** The snapshot after a whole history of updates. */
  function Fold(log: seq<Update>): Snapshot {
    if log == [] then EMPTY_SNAPSHOT else Publish(Fold(log[..|log| - 1]), log[|log| - 1])
  }

  lemma FoldSnoc(log: seq<Update>, u: Update)
    ensures Fold(log + [u]) == Publish(Fold(log), u)
  {
    assert (log + [u])[..|log|] == log;
  }

  /** A cloneable handle to the single snapshot; `log` is its history and `version` the
      watch channel's count of sends. */
  class StateHandle {
    var current: Snapshot
    var version: nat
    ghost var log: seq<Update>

    ghost predicate Valid()
      reads this
    {
      current == Fold(log) && version == |log|
    }

    constructor ()
      ensures Valid() && log == []
    {
      current, version := EMPTY_SNAPSHOT, 0;
      log := [];
    }

    method Update(u: Update)
      requires Valid()
      modifies this
      ensures Valid() && log == old(log) + [u]
    {
      current := Apply(u, current);
      current := current.(seqNo := Increment(current.seqNo));
      version := version + 1;
      FoldSnoc(log, u);
      log := log + [u];
    }
  }

  // ---- What a snapshot says about its history -------------------------------

  /** The independently overwritten parts of a snapshot. */
  datatype Slot = GoalSlot | TermSlot | FocusSlot | DiagnosticsSlot(uri: string) | ProgressSlot

  predicate Writes(u: Update, slot: Slot) {
    match slot
    case GoalSlot => u.SetGoal?
    case TermSlot => u.SetTerm?
    case FocusSlot => u.SetGoal? || u.SetTerm?
    case DiagnosticsSlot(uri) => u.SetDiagnostics? && u.uri == uri
    case ProgressSlot => u.SetProgress?
  }

  /** The last update in the history that wrote the slot. */
  function LastWrite(log: seq<Update>, slot: Slot): (w: Option<Update>)
    ensures w.Some? ==> Writes(w.value, slot)
  {
    if log == [] then None
    else if Writes(log[|log| - 1], slot) then Some(log[|log| - 1])
    else LastWrite(log[..|log| - 1], slot)
  }

  /** The snapshot's slot holds what `w` wrote, or its initial content. */
  predicate Shows(s: Snapshot, slot: Slot, w: Option<Update>)
    requires w.Some? ==> Writes(w.value, slot)
  {
    match slot
    case GoalSlot =>
      if w.None? then s.goals == [] && s.rendered.None? && !s.inTactic
      else s.goals == w.value.goals && s.rendered == w.value.rendered && s.inTactic == w.value.inTactic
    case TermSlot => s.termGoal == if w.None? then None else w.value.term
    case FocusSlot =>
      if w.None? then s.doc.None? && s.position.None?
      else s.doc == Some(w.value.doc) && s.position == Some(w.value.position)
    case DiagnosticsSlot(uri) =>
      if w.None? then uri !in s.diagnostics
      else uri in s.diagnostics && s.diagnostics[uri] == w.value.diagnostics
    case ProgressSlot =>
      s.progress == (if w.None? then [] else w.value.ranges) && s.elaborating == (s.progress != [])
  }

  lemma PublishShows(s: Snapshot, u: Update, slot: Slot, w: Option<Update>)
    requires w.Some? ==> Writes(w.value, slot)
    requires Shows(s, slot, w)
    ensures Shows(Publish(s, u), slot, if Writes(u, slot) then Some(u) else w)
  {
    match u
    case SetGoal(_, _, _, _, _) =>
    case SetTerm(_, _, _) =>
    case SetDiagnostics(_, _) =>
    case SetProgress(_) =>
  }

  lemma PublishCounts(s: Snapshot, u: Update)
    ensures Publish(s, u).seqNo == Increment(s.seqNo)
  {
  }

  /** Every slot of the snapshot holds the last value written to it, and the counter
      counts the updates. */
  lemma {:induction false} FoldShowsLastWrite(log: seq<Update>, slot: Slot)
    ensures Shows(Fold(log), slot, LastWrite(log, slot))
    ensures Fold(log).seqNo == Wrapped(|log|)
  {
    if log != [] {
      hide Shows, Writes, Apply, Publish, Wrapped, Increment;
      var init, u := log[..|log| - 1], log[|log| - 1];
      FoldShowsLastWrite(init, slot);
      PublishShows(Fold(init), u, slot, LastWrite(init, slot));
      PublishCounts(Fold(init), u);
      IncrementWrapped(|init|);
    }
  }

  /** The updates that came from goal answers, and the ones that came from the tee. */
  function Select(log: seq<Update>, answers: bool): seq<Update> {
    if log == [] then []
    else
      var rest := Select(log[..|log| - 1], answers);
      if Writes(log[|log| - 1], FocusSlot) == answers then rest + [log[|log| - 1]] else rest
  }

  lemma SelectSnoc(log: seq<Update>, u: Update, answers: bool)
    ensures Select(log + [u], answers) ==
      Select(log, answers) + if Writes(u, FocusSlot) == answers then [u] else []
  {
    assert (log + [u])[..|log|] == log;
  }

  /** The last write to a slot is found among the updates of its own origin. */
  lemma {:induction false} LastWriteInSelection(log: seq<Update>, slot: Slot)
    ensures LastWrite(log, slot) == LastWrite(Select(log, !slot.DiagnosticsSlot? && !slot.ProgressSlot?), slot)
    ensures |log| == |Select(log, true)| + |Select(log, false)|
  {
    if log != [] {
      var answers := !slot.DiagnosticsSlot? && !slot.ProgressSlot?;
      var init, u := log[..|log| - 1], log[|log| - 1];
      LastWriteInSelection(init, slot);
      assert log == init + [u];
      SelectSnoc(init, u, true);
      SelectSnoc(init, u, false);
      var selected := Select(log, answers);
      if Writes(u, FocusSlot) == answers {
        assert selected[..|selected| - 1] == Select(init, answers);
      }
    }
  }
}
