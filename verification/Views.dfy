/** What the snapshot shows over whole runs: the last diagnostics and progress forwarded to
    the client, and goal answers of the latest focus that answered. */
module Views {
  import opened Prelude
  import opened Wire
  import opened Json
  import opened StateStore
  import opened Query
  import opened Channel
  import opened Forward
  import opened Pipes
  import opened NoLeak
  import Envelope
  import Tee

  // ---- Origins of the updates ---------------------------------------------------------

  /** What forwarding these frames folds in, in order. */
  function TeeUpdates(packets: seq<Packet>): seq<Update> {
    if packets == [] then []
    else TeeUpdates(packets[..|packets| - 1]) + Tee.ToList(Tee.TeeUpdate(packets[|packets| - 1].value))
  }

  /** What these answers fold in, in order. */
  function AnswerUpdates(applied: seq<Applied>): (updates: seq<Update>)
    ensures |updates| == |applied|
    ensures forall i :: 0 <= i < |applied| ==> updates[i] == AnswerUpdate(applied[i].pending, applied[i].answer)
  {
    seq(|applied|, i requires 0 <= i < |applied| => AnswerUpdate(applied[i].pending, applied[i].answer))
  }

  /** The snapshot's history is a merge of what was teed from the frames queued to the
      client and the goal answers that were applied. */
  ghost predicate LogHolds(s: State) {
    && Select(s.log, false) == TeeUpdates(s.helix.sent)
    && Select(s.log, true) == AnswerUpdates(s.applied)
  }

  lemma ServerForwardKeepsLog(s: State)
    requires LogHolds(s) && Enabled(s, ServerForward)
    ensures LogHolds(Next(s, ServerForward))
  {
    hide Tee.TeeUpdate, AnswerUpdates;
    var p := s.s2c.packet;
    assert (s.helix.sent + [p])[..|s.helix.sent|] == s.helix.sent;
    match Tee.TeeUpdate(p.value)
    case Some(u) =>
      SelectSnoc(s.log, u, false);
      SelectSnoc(s.log, u, true);
    case None =>
      assert s.log + [] == s.log;
  }

  /** Only the server pump touches the snapshot and the queue to the client. */
  lemma LogUntouched(s: State, l: Label)
    requires Enabled(s, l) && !l.ServerForward? && !l.ServerFrame?
    ensures Next(s, l).log == s.log && Next(s, l).applied == s.applied && Next(s, l).helix.sent == s.helix.sent
  {
    hide ObserveCopy, InjectBoth, MaySay;
  }

  lemma StepKeepsLog(s: State, l: Label)
    requires LogHolds(s) && Enabled(s, l)
    ensures LogHolds(Next(s, l))
  {
    match l
    case ServerForward => ServerForwardKeepsLog(s);
    case ServerFrame(p) => HearKeepsLog(s, p);
    case _ =>
      LogUntouched(s, l);
      hide Next, Enabled, TeeUpdates, AnswerUpdates, Select;
  }

  /** The answer applied, if the frame is consumed and its generation is the latest. */
  lemma ApplyShape(s: State, p: Packet)
    requires Enabled(s, ServerFrame(p))
    ensures
      var t := Next(s, ServerFrame(p));
      var latest :=
        if Consumes(s, p) && s.reg.table[Envelope.AnsweredId(p.value).value].generation == s.reg.generation then
          [Applied(s.reg.table[Envelope.AnsweredId(p.value).value], p.value.value)]
        else [];
      t.applied == s.applied + latest && t.log == s.log + AnswerUpdates(latest)
  {
    hide MaySay, AnswerUpdate;
    assert Unread(s).reg == s.reg;
    assert s.applied + [] == s.applied && s.log + [] == s.log;
  }

  lemma AppliedOne(applied: seq<Applied>, a: Applied)
    ensures AnswerUpdates([a]) == [AnswerUpdate(a.pending, a.answer)]
    ensures AnswerUpdates(applied + [a]) == AnswerUpdates(applied) + AnswerUpdates([a])
  {
    hide AnswerUpdate;
  }

  lemma HearKeepsLog(s: State, p: Packet)
    requires LogHolds(s) && Enabled(s, ServerFrame(p))
    ensures LogHolds(Next(s, ServerFrame(p)))
  {
    HearShape(s, p);
    ApplyShape(s, p);
    hide Next, Enabled, Consumes, Unread, Select, TeeUpdates, Envelope.AnsweredId;
    var t := Next(s, ServerFrame(p));
    if |t.applied| > |s.applied| {
      var a := t.applied[|s.applied|];
      var u := AnswerUpdate(a.pending, a.answer);
      AppliedOne(s.applied, a);
      SelectSnoc(s.log, u, true);
      SelectSnoc(s.log, u, false);
    }
  }

  lemma {:induction false} RunKeepsLog(s: State, labels: seq<Label>, t: State)
    requires LogHolds(s) && Run(s, labels, t)
    ensures LogHolds(t)
    decreases |labels|
  {
    if labels != [] {
      StepKeepsLog(s, labels[0]);
      RunKeepsLog(Next(s, labels[0]), labels[1..], t);
    }
  }

  // ---- The tee --------------------------------------------------------------------------

  predicate TeeWrites(p: Packet, slot: Slot) {
    Tee.TeeUpdate(p.value).Some? && Writes(Tee.TeeUpdate(p.value).value, slot)
  }

  /** The `i`-th frame is the last one whose copy wrote the slot. */
  predicate LastTee(packets: seq<Packet>, slot: Slot, i: int) {
    && 0 <= i < |packets|
    && TeeWrites(packets[i], slot)
    && forall j :: i < j < |packets| ==> !TeeWrites(packets[j], slot)
  }

  lemma LastWriteSnoc(log: seq<Update>, u: Option<Update>, slot: Slot)
    ensures LastWrite(log + Tee.ToList(u), slot) ==
      if u.Some? && Writes(u.value, slot) then u else LastWrite(log, slot)
  {
    match u
    case Some(v) => assert (log + [v])[..|log|] == log;
    case None => assert log + [] == log;
  }

  lemma TeeWritesMeans(p: Packet, slot: Slot)
    ensures TeeWrites(p, slot) <==> Tee.TeeUpdate(p.value).Some? && Writes(Tee.TeeUpdate(p.value).value, slot)
  {
  }

  /** `i` is the last frame whose copy wrote the slot, or -1 if none did, and the updates
      teed from the frames agree. */
  ghost predicate FoundTee(packets: seq<Packet>, slot: Slot, i: int) {
    if i == -1 then
      && LastWrite(TeeUpdates(packets), slot).None?
      && forall j :: 0 <= j < |packets| ==> !TeeWrites(packets[j], slot)
    else
      LastTee(packets, slot, i) && LastWrite(TeeUpdates(packets), slot) == Tee.TeeUpdate(packets[i].value)
  }

  lemma FoundTeeSnoc(init: seq<Packet>, last: Packet, slot: Slot, i: int)
    requires FoundTee(init, slot, i)
    ensures FoundTee(init + [last], slot, if TeeWrites(last, slot) then |init| else i)
  {
    hide Tee.TeeUpdate, Writes, LastWrite, TeeWrites;
    var packets := init + [last];
    assert packets[..|packets| - 1] == init;
    assert forall j :: 0 <= j < |init| ==> packets[j] == init[j];
    LastWriteSnoc(TeeUpdates(init), Tee.TeeUpdate(last.value), slot);
    TeeWritesMeans(last, slot);
    assert TeeUpdates(packets) == TeeUpdates(init) + Tee.ToList(Tee.TeeUpdate(last.value));
    hide TeeUpdates, Tee.ToList;
    if TeeWrites(last, slot) {
      assert LastTee(packets, slot, |init|);
    } else if i != -1 {
      assert LastTee(packets, slot, i);
    }
  }

  lemma FoundNoTee(slot: Slot)
    ensures FoundTee([], slot, -1)
  {
  }

  lemma {:induction false} LastTeeWrite(packets: seq<Packet>, slot: Slot) returns (i: int)
    ensures FoundTee(packets, slot, i)
  {
    FoundNoTee(slot);
    hide FoundTee, TeeWrites;
    if packets == [] {
      i := -1;
    } else {
      var init, last := packets[..|packets| - 1], packets[|packets| - 1];
      i := LastTeeWrite(init, slot);
      FoundTeeSnoc(init, last, slot, i);
      assert packets == init + [last];
      i := if TeeWrites(last, slot) then |init| else i;
    }
  }

  /** Between steps of the server pump, the snapshot's diagnostics for a document are the
      parse of the last well-formed notification for it queued to the client, its progress
      is that of the last progress notification with params, `elaborating` says whether
      that is non-empty, and the counter counts every fold. */
  lemma TeeAgreesWithStream(triggers: seq<string>, labels: seq<Label>, t: State, uri: string)
    requires Run(Init(triggers), labels, t)
    ensures
      var snap := Fold(t.log);
      var slot := DiagnosticsSlot(uri);
      && (uri in snap.diagnostics <==> exists i :: LastTee(t.helix.sent, slot, i))
      && (forall i :: LastTee(t.helix.sent, slot, i) ==>
            Tee.TeeUpdate(t.helix.sent[i].value) == Some(SetDiagnostics(uri, snap.diagnostics[uri])))
      && (forall i :: LastTee(t.helix.sent, ProgressSlot, i) ==>
            Tee.TeeUpdate(t.helix.sent[i].value) == Some(SetProgress(snap.progress)))
      && ((forall i :: 0 <= i < |t.helix.sent| ==> !TeeWrites(t.helix.sent[i], ProgressSlot)) ==> snap.progress == [])
      && (snap.elaborating <==> snap.progress != [])
      && snap.seqNo == Wrapped(|t.applied| + |TeeUpdates(t.helix.sent)|)
  {
    hide Run, Tee.TeeUpdate;
    assert LogHolds(Init(triggers));
    RunKeepsLog(Init(triggers), labels, t);
    TeeSlotAgrees(t, DiagnosticsSlot(uri));
    TeeSlotAgrees(t, ProgressSlot);
  }

  lemma TeeSlotAgrees(t: State, slot: Slot)
    requires LogHolds(t) && (slot.DiagnosticsSlot? || slot.ProgressSlot?)
    ensures Shows(Fold(t.log), slot, LastWrite(TeeUpdates(t.helix.sent), slot))
    ensures LastWrite(TeeUpdates(t.helix.sent), slot).None? <==>
      forall i :: 0 <= i < |t.helix.sent| ==> !TeeWrites(t.helix.sent[i], slot)
    ensures LastWrite(TeeUpdates(t.helix.sent), slot).Some? ==> exists i :: LastTee(t.helix.sent, slot, i)
    ensures forall i :: LastTee(t.helix.sent, slot, i) ==>
      LastWrite(TeeUpdates(t.helix.sent), slot) == Tee.TeeUpdate(t.helix.sent[i].value)
    ensures Fold(t.log).seqNo == Wrapped(|t.applied| + |TeeUpdates(t.helix.sent)|)
  {
    hide Fold, Shows, LastWrite, Select, TeeUpdates, TeeWrites, Tee.TeeUpdate;
    FoldShowsLastWrite(t.log, slot);
    LastWriteInSelection(t.log, slot);
    var i := LastTeeWrite(t.helix.sent, slot);
    if i != -1 {
      assert TeeWrites(t.helix.sent[i], slot);
      TeeWritesMeans(t.helix.sent[i], slot);
    }
  }

  // ---- Supersession -----------------------------------------------------------------------

  predicate Siblings(p: Pending, q: Pending) {
    p.generation == q.generation ==> p.kind != q.kind && p.doc == q.doc && p.position == q.position
  }

  /** Queries of one generation are for one focus and differ in kind. */
  ghost predicate Paired(sent: seq<Item>) {
    forall i, j :: 0 <= i < j < |sent| && sent[i].origin.Injected? && sent[j].origin.Injected? ==>
      Siblings(sent[i].origin.pending, sent[j].origin.pending)
  }

  predicate WasSent(sent: seq<Item>, pending: Pending) {
    exists i :: 0 <= i < |sent| && sent[i].origin.Injected? && sent[i].origin.pending == pending
  }

  /** The generations of the applied answers never decrease. */
  ghost predicate InOrder(applied: seq<Applied>) {
    forall i, j :: 0 <= i < j < |applied| ==> applied[i].pending.generation <= applied[j].pending.generation
  }

  ghost predicate AnswerHolds(a: Applied, sent: seq<Item>, issued: nat) {
    && WasSent(sent, a.pending)
    && Envelope.AnsweredId(Some(a.answer)) == Some(IdOf(a.pending))
    && a.pending.generation <= issued
  }

  /** Each applied answer was to a query that was sent, under that query's id, and they
      come in the order of their generations. */
  ghost predicate AnswersInOrder(s: State) {
    && (forall i :: 0 <= i < |s.applied| ==> AnswerHolds(s.applied[i], s.lean.sent, s.reg.issued))
    && InOrder(s.applied)
  }

  predicate WasApplied(applied: seq<Applied>, pending: Pending) {
    exists i :: 0 <= i < |applied| && applied[i].pending == pending
  }

  predicate Settled(s: State, pending: Pending) {
    pending.generation == s.reg.issued ==> IdOf(pending) in s.reg.table || WasApplied(s.applied, pending)
  }

  /** Every query of the latest generation is still registered or has been applied. */
  ghost predicate LatestSettled(s: State) {
    forall i :: 0 <= i < |s.lean.sent| && s.lean.sent[i].origin.Injected? ==>
      Settled(s, s.lean.sent[i].origin.pending)
  }

  ghost predicate AnswersHold(s: State) {
    Paired(s.lean.sent) && AnswersInOrder(s) && LatestSettled(s)
  }

  ghost predicate ViewHolds(s: State) {
    Holds(s) && (s.reg.issued < U64_RANGE ==> AnswersHold(s))
  }

  lemma PushKeepsWasSent(sent: seq<Item>, items: seq<Item>, pending: Pending)
    requires WasSent(sent, pending)
    ensures WasSent(sent + items, pending)
  {
    var i :| 0 <= i < |sent| && sent[i].origin.Injected? && sent[i].origin.pending == pending;
    assert (sent + items)[i] == sent[i];
  }

  /** Queueing more frames to Lean keeps what is known of the applied answers. */
  lemma PushKeepsOrder(s: State, t: State, items: seq<Item>)
    requires AnswersInOrder(s) && t.applied == s.applied && t.lean.sent == s.lean.sent + items
    requires s.reg.issued <= t.reg.issued
    ensures AnswersInOrder(t)
  {
    hide IdOf, Envelope.AnsweredId, InOrder;
    forall i | 0 <= i < |t.applied| ensures AnswerHolds(t.applied[i], t.lean.sent, t.reg.issued) {
      assert AnswerHolds(s.applied[i], s.lean.sent, s.reg.issued);
      PushKeepsWasSent(s.lean.sent, items, t.applied[i].pending);
    }
  }

  lemma ClientForwardKeepsAnswers(s: State)
    requires AnswersHold(s) && Enabled(s, ClientForward)
    ensures AnswersHold(Next(s, ClientForward))
  {
    hide IdOf, Siblings, WasApplied;
    var t := Next(s, ClientForward);
    PushKeepsOrder(s, t, [Item(s.c2s.packet, FromClient)]);
    hide AnswersInOrder;
    forall i | 0 <= i < |t.lean.sent| && t.lean.sent[i].origin.Injected?
      ensures Settled(t, t.lean.sent[i].origin.pending)
    {
      assert Settled(s, s.lean.sent[i].origin.pending);
    }
  }

  /** A registered id was sent, as the query its entry describes. */
  lemma RegisteredWasSent(s: State, x: string)
    requires IdsHold(s) && x in s.reg.table
    ensures WasSent(s.lean.sent, s.reg.table[x]) && IdOf(s.reg.table[x]) == x
    ensures 1 <= s.reg.table[x].generation <= s.reg.issued
  {
    hide QueryBody, IdOf;
    assert Balanced(s.lean.sent, s.reg, s.heard, x);
    var i := AskedSomewhere(s.lean.sent, x);
    assert QueryHolds(s.lean.sent[i], s.reg);
    QueryBodyAsks(s.lean.sent[i].origin.pending);
  }

  lemma {:induction false} AskedSomewhere(items: seq<Item>, x: string) returns (i: nat)
    requires Asks(items, true, x) > 0
    ensures i < |items| && items[i].origin.Injected? && Envelope.AskedId(items[i].packet.value) == Some(x)
  {
    hide Envelope.AskedId;
    var last := items[|items| - 1];
    if last.origin.Injected? && Envelope.AskedId(last.packet.value) == Some(x) {
      i := |items| - 1;
    } else {
      i := AskedSomewhere(items[..|items| - 1], x);
    }
  }

  /** What hearing a frame does to the applied answers: nothing, or one more, the answer
      to the entry it consumes, which is of the latest generation. */
  ghost predicate HeardAnswer(s: State, p: Packet, t: State) {
    if Consumes(s, p) then
      var x := Envelope.AnsweredId(p.value).value;
      var pending := s.reg.table[x];
      && t.reg == WithoutEntry(s.reg, x)
      && t.applied == s.applied + if pending.generation == s.reg.issued then [Applied(pending, p.value.value)] else []
    else
      t.reg == s.reg && t.applied == s.applied
  }

  lemma HearMeans(s: State, p: Packet)
    requires Enabled(s, ServerFrame(p)) && s.reg.generation == s.reg.issued
    ensures HeardAnswer(s, p, Next(s, ServerFrame(p)))
    ensures Next(s, ServerFrame(p)).lean == s.lean
  {
    hide Envelope.AnsweredId;
    HearShape(s, p);
    ApplyShape(s, p);
    hide Next, Enabled, Unread;
    assert s.applied + [] == s.applied;
  }

  /** Consuming an answer: if it is of the latest generation it is applied; if not, no
      query of the latest generation is settled by it. */
  lemma HearKeepsAnswers(s: State, p: Packet)
    requires IdsHold(s) && AnswersHold(s) && s.reg.issued < U64_RANGE && Enabled(s, ServerFrame(p))
    ensures AnswersHold(Next(s, ServerFrame(p)))
  {
    HearMeans(s, p);
    hide Next, Enabled;
    var t := Next(s, ServerFrame(p));
    if Consumes(s, p) {
      var x := Envelope.AnsweredId(p.value).value;
      RegisteredWasSent(s, x);
      AnswerKeepsOrder(s, p, t, x);
      forall q | WasApplied(s.applied, q) ensures WasApplied(t.applied, q) {
        var i :| 0 <= i < |s.applied| && s.applied[i].pending == q;
        assert t.applied[i].pending == q;
      }
      if s.reg.table[x].generation == s.reg.issued {
        assert t.applied[|s.applied|].pending == s.reg.table[x];
      }
      SettledByAnswer(s, t, x);
    } else {
      hide IdOf, WasApplied, WasSent, Envelope.AnsweredId, IdsHold;
    }
  }

  lemma AnswerKeepsOrder(s: State, p: Packet, t: State, x: string)
    requires AnswersInOrder(s) && Envelope.AnsweredId(p.value) == Some(x) && x in s.reg.table
    requires t.lean == s.lean && t.reg.issued == s.reg.issued && HeardAnswer(s, p, t)
    requires WasSent(s.lean.sent, s.reg.table[x]) && IdOf(s.reg.table[x]) == x
    ensures AnswersInOrder(t)
  {
    hide IdOf, WasSent;
    assert p.value.Some?;
    hide Envelope.AnsweredId;
    assert forall i :: 0 <= i < |s.applied| ==> AnswerHolds(s.applied[i], s.lean.sent, s.reg.issued);
  }

  lemma SettledByAnswer(s: State, t: State, x: string)
    requires LatestSettled(s) && x in s.reg.table && IdOf(s.reg.table[x]) == x
    requires t.reg == WithoutEntry(s.reg, x) && t.lean == s.lean
    requires forall q :: WasApplied(s.applied, q) ==> WasApplied(t.applied, q)
    requires s.reg.table[x].generation == s.reg.issued ==> WasApplied(t.applied, s.reg.table[x])
    requires forall i :: 0 <= i < |s.lean.sent| ==> QueryHolds(s.lean.sent[i], s.reg)
    ensures LatestSettled(t)
  {
    hide QueryBody, IdOf, WasApplied;
    forall i | 0 <= i < |t.lean.sent| && t.lean.sent[i].origin.Injected?
      ensures Settled(t, t.lean.sent[i].origin.pending)
    {
      assert QueryHolds(s.lean.sent[i], s.reg);
    }
  }

  /** What a request changes: new items for one focus in a new generation. */
  lemma FireShape(s: State, bodies: (bytes, bytes), reserved: bool) returns (items: seq<Item>)
    requires PipesHold(s) && Enabled(s, SnoopFire(bodies, reserved))
    ensures
      var t := Next(s, SnoopFire(bodies, reserved));
      && t.lean.sent == s.lean.sent + items
      && t.reg.issued == s.reg.issued + 1
      && t == s.(lean := t.lean, reg := t.reg, snoop := s.snoop.(pending := None))
    ensures Paired(items)
    ensures forall i :: 0 <= i < |items| ==>
      && items[i].origin.Injected? && items[i].origin.cause == s.snoop.pending.value.cause
      && items[i].packet.value == Some(QueryBody(items[i].origin.pending))
      && items[i].origin.pending.doc == s.snoop.pending.value.focus.doc
      && items[i].origin.pending.position == s.snoop.pending.value.focus.position
      && items[i].origin.pending.generation == Increment(s.reg.generation)
  {
    IssuedGrows(s, SnoopFire(bodies, reserved));
    hide InjectBoth, QueryBody;
    var aim := s.snoop.pending.value;
    items := InjectBothPushes(Desk(s.lean, s.reg), aim.focus.doc, aim.focus.position, aim.cause, bodies, reserved);
  }

  /** The queries of a new generation are registered; those before it no longer matter. */
  lemma NewGenerationSettled(s: State, t: State, items: seq<Item>)
    requires IdsHold(s) && IdsHold(t) && t.heard == s.heard
    requires t.lean.sent == s.lean.sent + items && t.reg.issued == s.reg.issued + 1
    requires forall i :: 0 <= i < |items| ==>
      items[i].origin.Injected? && items[i].origin.pending.generation == t.reg.issued
    ensures LatestSettled(t)
  {
    hide QueryBody, IdOf, WasApplied;
    assert forall i :: 0 <= i < |s.lean.sent| ==> QueryHolds(s.lean.sent[i], s.reg);
    hide IdsHold;
    forall i | 0 <= i < |t.lean.sent| && t.lean.sent[i].origin.Injected?
      ensures Settled(t, t.lean.sent[i].origin.pending)
    {
      if i < |s.lean.sent| {
        assert QueryHolds(s.lean.sent[i], s.reg);
      } else {
        assert t.lean.sent[i] == items[i - |s.lean.sent|];
        NewIdIsRegistered(s, t, i);
      }
    }
  }

  /** What a request adds: queries numbered by the generation just issued. */
  lemma FireNumbers(s: State, bodies: (bytes, bytes), reserved: bool) returns (items: seq<Item>)
    requires PipesHold(s) && IdsHold(s) && Enabled(s, SnoopFire(bodies, reserved))
    requires s.reg.issued + 1 < U64_RANGE
    ensures
      var t := Next(s, SnoopFire(bodies, reserved));
      && t.lean.sent == s.lean.sent + items && t.reg.issued == s.reg.issued + 1
      && t.heard == s.heard && t.applied == s.applied && IdsHold(t)
    ensures Paired(items)
    ensures forall i :: 0 <= i < |items| ==>
      items[i].origin.Injected? && items[i].origin.pending.generation == s.reg.issued + 1
  {
    GenerationIsIssued(s);
    hide Next, Enabled, PipesHold, IdsHold, Paired, QueryBody;
    items := FireShape(s, bodies, reserved);
    FireKeepsIds(s, bodies, reserved);
  }

  lemma GenerationIsIssued(s: State)
    requires IdsHold(s) && s.reg.issued + 1 < U64_RANGE
    ensures Increment(s.reg.generation) == s.reg.issued + 1
  {
    assert s.reg.generation == Wrapped(s.reg.issued);
    IncrementWrapped(s.reg.issued);
  }

  /** A new generation: its queries are new, for one focus, and registered. */
  lemma FireKeepsAnswers(s: State, bodies: (bytes, bytes), reserved: bool)
    requires PipesHold(s) && IdsHold(s) && AnswersHold(s) && Enabled(s, SnoopFire(bodies, reserved))
    requires s.reg.issued + 1 < U64_RANGE
    ensures AnswersHold(Next(s, SnoopFire(bodies, reserved)))
  {
    assert forall i :: 0 <= i < |s.lean.sent| ==> QueryHolds(s.lean.sent[i], s.reg);
    hide Next, Enabled, PipesHold, IdsHold, QueryHolds, AnswersInOrder, LatestSettled, Paired;
    var t := Next(s, SnoopFire(bodies, reserved));
    var items := FireNumbers(s, bodies, reserved);
    PushKeepsOrder(s, t, items);
    NewGenerationSettled(s, t, items);
    PairedAppend(s.lean.sent, items, s.reg, t.reg.issued);
  }

  lemma PairedAppend(sent: seq<Item>, items: seq<Item>, reg: Registry, g: u64)
    requires Paired(sent) && Paired(items) && reg.issued < g
    requires forall i :: 0 <= i < |sent| ==> QueryHolds(sent[i], reg)
    requires forall i :: 0 <= i < |items| ==> items[i].origin.Injected? && items[i].origin.pending.generation == g
    ensures Paired(sent + items)
  {
    hide QueryBody, IdOf, Siblings;
    var all := sent + items;
    forall i, j | 0 <= i < j < |all| && all[i].origin.Injected? && all[j].origin.Injected?
      ensures Siblings(all[i].origin.pending, all[j].origin.pending)
    {
      if i < |sent| <= j {
        assert QueryHolds(sent[i], reg) && all[j] == items[j - |sent|];
        DifferentGenerations(all[i].origin.pending, all[j].origin.pending);
      } else if |sent| <= i {
        assert all[i] == items[i - |sent|] && all[j] == items[j - |sent|];
      }
    }
  }

  lemma DifferentGenerations(p: Pending, q: Pending)
    requires p.generation != q.generation
    ensures Siblings(p, q)
  {
  }

  lemma NewIdIsRegistered(s: State, t: State, i: nat)
    requires IdsHold(s) && IdsHold(t) && t.heard == s.heard
    requires |s.lean.sent| <= i < |t.lean.sent| && t.lean.sent[i].origin.Injected?
    requires t.lean.sent[i].origin.pending.generation > s.reg.issued
    ensures IdOf(t.lean.sent[i].origin.pending) in t.reg.table
  {
    hide QueryBody, IdOf;
    var pending := t.lean.sent[i].origin.pending;
    var x := IdOf(pending);
    forall j | 0 <= j < |s.lean.sent| && s.lean.sent[j].origin.Injected?
      ensures IdOf(s.lean.sent[j].origin.pending) != x
    {
      var earlier := s.lean.sent[j].origin.pending;
      assert QueryHolds(s.lean.sent[j], s.reg);
      IdsOfGenerationsDiffer(earlier, pending);
    }
    FreshId(s.lean.sent, s.reg, x);
    assert Balanced(s.lean.sent, s.reg, s.heard, x);
    assert Balanced(t.lean.sent, t.reg, t.heard, x);
    assert QueryHolds(t.lean.sent[i], t.reg);
    if Asks(t.lean.sent, true, x) == 0 {
      OldIdDiffers(Desk(t.lean, t.reg), t.heard, i, x);
    }
  }

  lemma IdsOfGenerationsDiffer(a: Pending, b: Pending)
    requires a.generation != b.generation
    ensures IdOf(a) != IdOf(b)
  {
    InjectedIdInjective(a.generation, a.kind, b.generation, b.kind);
  }

  lemma StepKeepsView(s: State, l: Label)
    requires ViewHolds(s) && Enabled(s, l)
    ensures ViewHolds(Next(s, l))
  {
    hide PipesHold, IdsHold;
    StepKeepsIds(s, l);
    IssuedGrows(s, l);
    if Next(s, l).reg.issued < U64_RANGE {
      match l
      case ClientForward => ClientForwardKeepsAnswers(s);
      case SnoopFire(bodies, reserved) => FireKeepsAnswers(s, bodies, reserved);
      case ServerFrame(p) => HearKeepsAnswers(s, p);
      case LeanWriter(step) => WriterKeepsSent(s.lean, LeanSenders(s), step);
      case _ =>
        hide ForwardClient, ObserveCopy, Fire, HearServer, WriterCan, WriterNext, MaySay;
        hide Paired, WasSent, WasApplied, IdOf, Envelope.AnsweredId;
    }
  }

  lemma WriterKeepsSent<T>(s: Sink<T>, senders: bool, step: WriterStep)
    requires WriterCan(s, senders, step)
    ensures WriterNext(s, senders, step).sent == s.sent
  {
  }

  lemma {:induction false} RunKeepsView(s: State, labels: seq<Label>, t: State)
    requires ViewHolds(s) && Run(s, labels, t)
    ensures ViewHolds(t)
    decreases |labels|
  {
    if labels != [] {
      StepKeepsView(s, labels[0]);
      RunKeepsView(Next(s, labels[0]), labels[1..], t);
    }
  }

  lemma EveryRunViews(triggers: seq<string>, labels: seq<Label>, t: State)
    requires Run(Init(triggers), labels, t)
    ensures ViewHolds(t) && LogHolds(t)
  {
    InitHolds(triggers);
    RunKeepsView(Init(triggers), labels, t);
    RunKeepsLog(Init(triggers), labels, t);
  }

  // ---- What the snapshot's goals describe ---------------------------------------------------

  /** Whether an answer writes the slot. */
  predicate Fills(a: Applied, slot: Slot) {
    || slot.FocusSlot?
    || (slot.GoalSlot? && a.pending.kind == PlainGoal)
    || (slot.TermSlot? && a.pending.kind == PlainTermGoal)
  }

  /** The last applied answer that wrote the slot; its generation is the slot's tag. */
  function LastFilling(applied: seq<Applied>, slot: Slot): (a: Option<Applied>)
    ensures a.Some? ==> a.value in applied && Fills(a.value, slot)
  {
    if applied == [] then None
    else if Fills(applied[|applied| - 1], slot) then Some(applied[|applied| - 1])
    else LastFilling(applied[..|applied| - 1], slot)
  }

  function Tag(applied: seq<Applied>, slot: Slot): nat {
    match LastFilling(applied, slot)
    case Some(a) => a.pending.generation
    case None => 0
  }

  lemma {:induction false} LastFillingWrites(applied: seq<Applied>, slot: Slot)
    requires slot.GoalSlot? || slot.TermSlot? || slot.FocusSlot?
    ensures LastWrite(AnswerUpdates(applied), slot) ==
      match LastFilling(applied, slot)
      case Some(a) => Some(AnswerUpdate(a.pending, a.answer))
      case None => None
  {
    if applied != [] {
      var updates := AnswerUpdates(applied);
      assert updates[..|updates| - 1] == AnswerUpdates(applied[..|applied| - 1]);
      LastFillingWrites(applied[..|applied| - 1], slot);
    }
  }

  /** The slot's content is what the last answer for it says. */
  lemma SlotShowsLastAnswer(t: State, slot: Slot)
    requires LogHolds(t) && (slot.GoalSlot? || slot.TermSlot? || slot.FocusSlot?)
    ensures
      match LastFilling(t.applied, slot)
      case Some(a) => Shows(Fold(t.log), slot, Some(AnswerUpdate(a.pending, a.answer)))
      case None => Shows(Fold(t.log), slot, None)
  {
    FoldShowsLastWrite(t.log, slot);
    LastWriteInSelection(t.log, slot);
    LastFillingWrites(t.applied, slot);
  }

  lemma {:induction false} TagBounds(applied: seq<Applied>, slot: Slot, i: nat)
    requires InOrder(applied) && i < |applied| && Fills(applied[i], slot)
    ensures LastFilling(applied, slot).Some?
    ensures applied[i].pending.generation <= Tag(applied, slot) <= applied[|applied| - 1].pending.generation
  {
    if i < |applied| - 1 && !Fills(applied[|applied| - 1], slot) {
      TagBounds(applied[..|applied| - 1], slot, i);
    }
  }

  lemma AppliedInOrder(triggers: seq<string>, labels: seq<Label>, t: State)
    requires Run(Init(triggers), labels, t) && t.reg.issued < U64_RANGE
    ensures InOrder(t.applied) && t.reg.generation == t.reg.issued
    ensures forall i :: 0 <= i < |t.applied| ==> t.applied[i].pending.generation <= t.reg.issued
  {
    hide Run, PipesHold, LogHolds, LatestSettled, Paired, NoExtraAnswers, WasSent, Envelope.AnsweredId, IdOf;
    EveryRunViews(triggers, labels, t);
  }

  lemma TagAtMostLast(applied: seq<Applied>, slot: Slot)
    requires InOrder(applied) && applied != []
    ensures Tag(applied, slot) <= applied[|applied| - 1].pending.generation
  {
    var a := LastFilling(applied, slot);
    if a.Some? {
      var i :| 0 <= i < |applied| && applied[i] == a.value;
      TagBounds(applied, slot, i);
    }
  }

  lemma FocusTag(applied: seq<Applied>)
    requires InOrder(applied)
    ensures
      var goal, term := Tag(applied, GoalSlot), Tag(applied, TermSlot);
      Tag(applied, FocusSlot) == if goal <= term then term else goal
  {
    if applied != [] {
      TagAtMostLast(applied, GoalSlot);
      TagAtMostLast(applied, TermSlot);
    }
  }

  /** Supersession within a state: the tag of the document and position is the larger of
      the tags of the goals and of the term goal, and is not ahead of the counter. */
  lemma FocusTagIsMaximum(triggers: seq<string>, labels: seq<Label>, t: State)
    requires Run(Init(triggers), labels, t) && t.reg.issued < U64_RANGE
    ensures
      var goal, term := Tag(t.applied, GoalSlot), Tag(t.applied, TermSlot);
      Tag(t.applied, FocusSlot) == (if goal <= term then term else goal) <= t.reg.issued
  {
    hide Run, Tag;
    AppliedInOrder(triggers, labels, t);
    FocusTag(t.applied);
    if t.applied != [] {
      TagAtMostLast(t.applied, FocusSlot);
    } else {
      NoTag(FocusSlot);
    }
  }

  lemma NoTag(slot: Slot)
    ensures Tag([], slot) == 0
  {
  }

  lemma TagSnoc(applied: seq<Applied>, a: Applied, slot: Slot)
    requires InOrder(applied)
    requires forall i :: 0 <= i < |applied| ==> applied[i].pending.generation <= a.pending.generation
    ensures Tag(applied, slot) <= Tag(applied + [a], slot)
  {
    assert (applied + [a])[..|applied|] == applied;
    if applied != [] {
      TagAtMostLast(applied, slot);
    }
  }

  /** Supersession over time: an answer is applied only in the generation that is the
      latest when it is heard, and no tag ever goes down. */
  lemma TagsNeverDecrease(triggers: seq<string>, labels: seq<Label>, t: State, l: Label, slot: Slot)
    requires Run(Init(triggers), labels, t) && Enabled(t, l) && t.reg.issued < U64_RANGE
    ensures Tag(t.applied, slot) <= Tag(Next(t, l).applied, slot)
    ensures Next(t, l).applied == t.applied
      || (exists a :: Next(t, l).applied == t.applied + [a] && a.pending.generation == t.reg.issued)
  {
    if l.ServerFrame? {
      AppliedInOrder(triggers, labels, t);
      ApplyShape(t, l.packet);
      hide Run, Next, Enabled, Tag;
      var after := Next(t, l).applied;
      if after != t.applied {
        var a := after[|t.applied|];
        assert after == t.applied + [a];
        TagSnoc(t.applied, a, slot);
      }
    } else {
      AppliedOnlyWhenHearing(t, l);
    }
  }

  lemma AppliedOnlyWhenHearing(s: State, l: Label)
    requires Enabled(s, l) && !l.ServerFrame?
    ensures Next(s, l).applied == s.applied
  {
    if l.ServerForward? {
      hide Tee.TeeUpdate;
    } else {
      LogUntouched(s, l);
    }
  }

  /** A settled generation renders as one: if both queries of the latest generation were
      accepted and neither is outstanding, the goals, the term goal, the document and the
      position all come from that generation's focus and Lean's answers to it. */
  lemma SettledGenerationIsConsistent(triggers: seq<string>, labels: seq<Label>, t: State, i: nat, j: nat)
    requires Run(Init(triggers), labels, t) && t.reg.issued < U64_RANGE
    requires i < |t.lean.sent| && j < |t.lean.sent|
    requires t.lean.sent[i].origin.Injected? && t.lean.sent[j].origin.Injected?
    requires
      var p, q := t.lean.sent[i].origin.pending, t.lean.sent[j].origin.pending;
      && p.kind == PlainGoal && q.kind == PlainTermGoal
      && p.generation == q.generation == t.reg.issued
      && IdOf(p) !in t.reg.table && IdOf(q) !in t.reg.table
    ensures
      var p, q := t.lean.sent[i].origin.pending, t.lean.sent[j].origin.pending;
      var snap := Fold(t.log);
      && p.doc == q.doc && p.position == q.position
      && snap.doc == Some(p.doc) && snap.position == Some(p.position)
      && (exists a :: a in t.applied && a.pending == p && Shows(snap, GoalSlot, Some(AnswerUpdate(p, a.answer))))
      && (exists b :: b in t.applied && b.pending == q && Shows(snap, TermSlot, Some(AnswerUpdate(q, b.answer))))
  {
    hide Run, PipesHold, IdsHold, IdOf, Fold, LogHolds, Shows;
    EveryRunViews(triggers, labels, t);
    var p, q := t.lean.sent[i].origin.pending, t.lean.sent[j].origin.pending;
    assert i != j;
    assert p.doc == q.doc && p.position == q.position;
    var a := LatestFills(t, p, GoalSlot);
    var b := LatestFills(t, q, TermSlot);
    var f := LatestFills(t, p, FocusSlot);
    FocusShows(t, f);
  }

  lemma FocusShows(t: State, f: Applied)
    requires LogHolds(t) && LastFilling(t.applied, FocusSlot) == Some(f)
    ensures Fold(t.log).doc == Some(f.pending.doc) && Fold(t.log).position == Some(f.pending.position)
  {
    SlotShowsLastAnswer(t, FocusSlot);
  }

  /** The last answer for a slot is of the latest generation once that has filled it. */
  lemma LatestFills(t: State, p: Pending, slot: Slot) returns (a: Applied)
    requires LogHolds(t) && AnswersHold(t) && p.generation == t.reg.issued
    requires slot == FocusSlot || slot == if p.kind == PlainGoal then GoalSlot else TermSlot
    requires WasSent(t.lean.sent, p) && WasApplied(t.applied, p)
    ensures a in t.applied && LastFilling(t.applied, slot) == Some(a)
    ensures Shows(Fold(t.log), slot, Some(AnswerUpdate(a.pending, a.answer)))
    ensures a.pending.doc == p.doc && a.pending.position == p.position
    ensures slot != FocusSlot ==> a.pending == p
  {
    hide IdOf, Envelope.AnsweredId, Fold, Shows, LogHolds, AnswerUpdate, InOrder, LatestSettled, Paired;
    SlotShowsLastAnswer(t, slot);
    var k :| 0 <= k < |t.applied| && t.applied[k].pending == p;
    TagBounds(t.applied, slot, k);
    a := LastFilling(t.applied, slot).value;
    var m :| 0 <= m < |t.applied| && t.applied[m] == a;
    assert AnswerHolds(a, t.lean.sent, t.reg.issued) && AnswerHolds(t.applied[k], t.lean.sent, t.reg.issued);
    TagAtMostLast(t.applied, slot);
    assert AnswerHolds(t.applied[|t.applied| - 1], t.lean.sent, t.reg.issued);
    SameGeneration(t.lean.sent, a.pending, p);
  }

  lemma SameGeneration(sent: seq<Item>, p: Pending, q: Pending)
    requires Paired(sent) && WasSent(sent, p) && WasSent(sent, q) && p.generation == q.generation
    ensures p.doc == q.doc && p.position == q.position
    ensures p.kind == q.kind ==> p == q
  {
    var i :| 0 <= i < |sent| && sent[i].origin.Injected? && sent[i].origin.pending == p;
    var j :| 0 <= j < |sent| && sent[j].origin.Injected? && sent[j].origin.pending == q;
  }
}
