/** The registry of injected ids over whole runs: it holds exactly the injected ids whose
    answer has not been consumed, no answer to an injected query reaches the client, and
    no other frame is withheld from it. Statements that count ids are for runs that open fewer
    than 2^64 generations: then no generation number is ever issued twice. */
module NoLeak {
  import opened Prelude
  import opened Json
  import opened Query
  import opened Channel
  import opened Forward
  import opened Pipes
  import opened Wire
  import Envelope
  import Tee

  // ---- Counting ---------------------------------------------------------------------

  lemma AsksSnoc(items: seq<Item>, item: Item, injected: bool, x: string)
    ensures Asks(items + [item], injected, x) == Asks(items, injected, x)
      + if item.origin.Injected? == injected && Envelope.AskedId(item.packet.value) == Some(x) then 1 else 0
  {
    assert (items + [item])[..|items|] == items;
  }

  lemma AnswersSnoc(heard: seq<Heard>, h: Heard, consumed: bool, x: string)
    ensures Answers(heard + [h], consumed, x) == Answers(heard, consumed, x)
      + if h.consumed == consumed && Envelope.AnsweredId(h.packet.value) == Some(x) then 1 else 0
  {
    assert (heard + [h])[..|heard|] == heard;
  }

  lemma {:induction false} AsksAppend(a: seq<Item>, b: seq<Item>, injected: bool, x: string)
    ensures Asks(a + b, injected, x) == Asks(a, injected, x) + Asks(b, injected, x)
  {
    if b == [] {
      assert a + b == a;
    } else {
      var init, last := b[..|b| - 1], b[|b| - 1];
      assert a + b == (a + init) + [last] && b == init + [last];
      AsksAppend(a, init, injected, x);
      AsksSnoc(a + init, last, injected, x);
      AsksSnoc(init, last, injected, x);
    }
  }

  // ---- The invariant ----------------------------------------------------------------

  /** A queued query is what its registry entry says it is. */
  ghost predicate QueryHolds(item: Item, reg: Registry) {
    item.origin.Injected? ==>
      var pending := item.origin.pending;
      && 1 <= pending.generation <= reg.issued
      && item.packet.value == Some(QueryBody(pending))
      && (IdOf(pending) in reg.table ==> reg.table[IdOf(pending)] == pending)
  }

  /** For every id: injected at most once, and injected exactly as often as consumed or
      still registered. */
  ghost predicate Balanced(sent: seq<Item>, reg: Registry, heard: seq<Heard>, x: string) {
    && Asks(sent, true, x) <= 1
    && Asks(sent, true, x) == Answers(heard, true, x) + if x in reg.table then 1 else 0
  }

  ghost predicate DeskHolds(desk: Desk, heard: seq<Heard>) {
    && desk.reg.generation == Wrapped(desk.reg.issued)
    && (forall i :: 0 <= i < |desk.lean.sent| ==> QueryHolds(desk.lean.sent[i], desk.reg))
    && (forall x :: Balanced(desk.lean.sent, desk.reg, heard, x))
  }

  /** Forwarded answers under an id never outnumber the client's requests under it. */
  ghost predicate NoExtraAnswers(s: State) {
    forall x :: Answers(s.heard, false, x) <= Asks(s.lean.taken, false, x)
  }

  ghost predicate IdsHold(s: State) {
    DeskHolds(Desk(s.lean, s.reg), s.heard) && NoExtraAnswers(s)
  }

  ghost predicate Holds(s: State) {
    PipesHold(s) && (s.reg.issued < U64_RANGE ==> IdsHold(s))
  }

  // ---- Injection --------------------------------------------------------------------

  lemma {:induction false} FreshId(items: seq<Item>, reg: Registry, x: string)
    requires forall i :: 0 <= i < |items| ==> QueryHolds(items[i], reg)
    requires forall i :: 0 <= i < |items| && items[i].origin.Injected? ==> IdOf(items[i].origin.pending) != x
    ensures Asks(items, true, x) == 0
  {
    if items != [] {
      hide QueryBody, IdOf;
      var last := items[|items| - 1];
      if last.origin.Injected? {
        QueryBodyAsks(last.origin.pending);
      }
      FreshId(items[..|items| - 1], reg, x);
    }
  }

  /** Registering before sending, and undoing that when sending fails, keeps the balance. */
  lemma InjectOneKeeps(desk: Desk, kind: QueryKind, doc: DocRef, position: Position, cause: seq<nat>, body: bytes,
                       reserved: bool, heard: seq<Heard>)
    requires DeskHolds(desk, heard)
    requires 1 <= desk.reg.generation <= desk.reg.issued
    requires Asks(desk.lean.sent, true, InjectedId(desk.reg.generation, kind)) == 0
    ensures DeskHolds(InjectOne(desk, kind, doc, position, cause, body, reserved), heard)
    ensures InjectOne(desk, kind, doc, position, cause, body, reserved).reg.(table := desk.reg.table) == desk.reg
    ensures forall x :: x != InjectedId(desk.reg.generation, kind) ==>
      Asks(InjectOne(desk, kind, doc, position, cause, body, reserved).lean.sent, true, x)
        == Asks(desk.lean.sent, true, x)
  {
    hide QueryBody, InjectedId;
    var after := InjectOne(desk, kind, doc, position, cause, body, reserved);
    var pending := Pending(kind, doc, position, desk.reg.generation);
    var id := IdOf(pending);
    var item := QueryItem(pending, cause, body);
    QueryBodyAsks(pending);
    assert Balanced(desk.lean.sent, desk.reg, heard, id);
    if desk.lean.HasRoomBeside(reserved) {
      forall x ensures Balanced(after.lean.sent, after.reg, heard, x)
        && (x != id ==> Asks(after.lean.sent, true, x) == Asks(desk.lean.sent, true, x)) {
        assert Balanced(desk.lean.sent, desk.reg, heard, x);
        AsksSnoc(desk.lean.sent, item, true, x);
      }
      forall i | 0 <= i < |after.lean.sent| ensures QueryHolds(after.lean.sent[i], after.reg) {
        if i < |desk.lean.sent| {
          OldIdDiffers(desk, heard, i, id);
        }
      }
    } else {
      assert after.reg.table == desk.reg.table;
      forall x ensures Balanced(after.lean.sent, after.reg, heard, x) {
        assert Balanced(desk.lean.sent, desk.reg, heard, x);
      }
    }
  }

  /** An id that was never asked under is not the id of a queued query. */
  lemma OldIdDiffers(desk: Desk, heard: seq<Heard>, i: nat, id: string)
    requires i < |desk.lean.sent| && QueryHolds(desk.lean.sent[i], desk.reg)
    requires Asks(desk.lean.sent, true, id) == 0
    ensures desk.lean.sent[i].origin.Injected? ==> IdOf(desk.lean.sent[i].origin.pending) != id
  {
    hide QueryBody, IdOf;
    var sent := desk.lean.sent;
    if sent[i].origin.Injected? {
      QueryBodyAsks(sent[i].origin.pending);
      assert sent == sent[..i] + [sent[i]] + sent[i + 1..];
      AsksAppend(sent[..i] + [sent[i]], sent[i + 1..], true, id);
      AsksSnoc(sent[..i], sent[i], true, id);
    }
  }

  /** A whole request: a fresh generation makes both ids new. */
  lemma InjectBothKeeps(desk: Desk, doc: DocRef, position: Position, cause: seq<nat>, bodies: (bytes, bytes),
                        reserved: bool, heard: seq<Heard>)
    requires DeskHolds(desk, heard) && desk.reg.issued + 1 < U64_RANGE
    ensures DeskHolds(InjectBoth(desk, doc, position, cause, bodies, reserved), heard)
    ensures InjectBoth(desk, doc, position, cause, bodies, reserved).reg.issued == desk.reg.issued + 1
  {
    hide QueryBody, InjectedId;
    var ready := desk.(reg := OpenGeneration(desk.reg));
    IncrementWrapped(desk.reg.issued);
    var g := ready.reg.generation;
    assert g == desk.reg.issued + 1;
    assert DeskHolds(ready, heard) by {
      forall x ensures Balanced(ready.lean.sent, ready.reg, heard, x) {
        assert Balanced(desk.lean.sent, desk.reg, heard, x);
      }
      forall i | 0 <= i < |ready.lean.sent| ensures QueryHolds(ready.lean.sent[i], ready.reg) {
        assert QueryHolds(desk.lean.sent[i], desk.reg);
      }
    }
    forall kind: QueryKind ensures Asks(ready.lean.sent, true, InjectedId(g, kind)) == 0 {
      forall i | 0 <= i < |ready.lean.sent| && ready.lean.sent[i].origin.Injected?
        ensures IdOf(ready.lean.sent[i].origin.pending) != InjectedId(g, kind)
      {
        var pending := ready.lean.sent[i].origin.pending;
        assert QueryHolds(desk.lean.sent[i], desk.reg);
        InjectedIdInjective(pending.generation, pending.kind, g, kind);
      }
      FreshId(ready.lean.sent, ready.reg, InjectedId(g, kind));
    }
    InjectOneKeeps(ready, PlainGoal, doc, position, cause, bodies.0, reserved, heard);
    var first := InjectOne(ready, PlainGoal, doc, position, cause, bodies.0, reserved);
    InjectedIdInjective(g, PlainGoal, g, PlainTermGoal);
    InjectOneKeeps(first, PlainTermGoal, doc, position, cause, bodies.1, reserved, heard);
  }

  // ---- Steps ------------------------------------------------------------------------

  lemma FireKeepsIds(s: State, bodies: (bytes, bytes), reserved: bool)
    requires PipesHold(s) && IdsHold(s) && Enabled(s, SnoopFire(bodies, reserved))
    requires Next(s, SnoopFire(bodies, reserved)).reg.issued < U64_RANGE
    ensures IdsHold(Next(s, SnoopFire(bodies, reserved)))
  {
    hide InjectBoth, DeskHolds;
    var aim := s.snoop.pending.value;
    var desk := Desk(s.lean, s.reg);
    IssuedGrows(s, SnoopFire(bodies, reserved));
    var items := InjectBothPushes(desk, aim.focus.doc, aim.focus.position, aim.cause, bodies, reserved);
    InjectBothKeeps(desk, aim.focus.doc, aim.focus.position, aim.cause, bodies, reserved, s.heard);
    var t := Next(s, SnoopFire(bodies, reserved));
    assert Desk(t.lean, t.reg) == InjectBoth(desk, aim.focus.doc, aim.focus.position, aim.cause, bodies, reserved);
  }

  lemma IssuedGrows(s: State, l: Label)
    requires Enabled(s, l)
    ensures Next(s, l).reg.issued == s.reg.issued + if l.SnoopFire? then 1 else 0
  {
    match l
    case ServerFrame(p) => HearShape(s, p);
    case _ =>
      hide ObserveCopy, HearServer, WriterCan, WriterNext, QueryBody, MaySay;
  }

  lemma ClientForwardKeepsIds(s: State)
    requires PipesHold(s) && IdsHold(s) && Enabled(s, ClientForward)
    ensures IdsHold(Next(s, ClientForward))
  {
    var t := Next(s, ClientForward);
    var item := Item(s.c2s.packet, FromClient);
    forall x ensures Balanced(t.lean.sent, t.reg, t.heard, x) {
      assert Balanced(s.lean.sent, s.reg, s.heard, x);
      AsksSnoc(s.lean.sent, item, true, x);
    }
    forall i | 0 <= i < |t.lean.sent| ensures QueryHolds(t.lean.sent[i], t.reg) {
      assert i < |s.lean.sent| ==> QueryHolds(s.lean.sent[i], s.reg);
    }
  }

  lemma LeanWriterKeepsIds(s: State, step: WriterStep)
    requires PipesHold(s) && IdsHold(s) && Enabled(s, LeanWriter(step))
    ensures IdsHold(Next(s, LeanWriter(step)))
  {
    hide DeskHolds;
    var t := Next(s, LeanWriter(step));
    WriterKeepsValidIf(s.lean, LeanSenders(s), step);
    assert DeskHolds(Desk(t.lean, t.reg), t.heard) by {
      DeskDependsOnSent(Desk(s.lean, s.reg), Desk(t.lean, t.reg), s.heard);
    }
    forall x ensures Answers(t.heard, false, x) <= Asks(t.lean.taken, false, x) {
      assert Answers(s.heard, false, x) <= Asks(s.lean.taken, false, x);
      if step.Take? {
        AsksSnoc(s.lean.taken, s.lean.queue[0], false, x);
      }
    }
  }

  lemma DeskDependsOnSent(a: Desk, b: Desk, heard: seq<Heard>)
    requires DeskHolds(a, heard) && a.lean.sent == b.lean.sent && a.reg == b.reg
    ensures DeskHolds(b, heard)
  {
    forall x ensures Balanced(b.lean.sent, b.reg, heard, x) {
      assert Balanced(a.lean.sent, a.reg, heard, x);
    }
  }

  /** The consume branch: the id leaves the registry as its answer is counted. */
  lemma ConsumeKeepsDesk(desk: Desk, heard: seq<Heard>, p: Packet, id: string)
    requires DeskHolds(desk, heard) && Envelope.AnsweredId(p.value) == Some(id) && id in desk.reg.table
    ensures DeskHolds(Desk(desk.lean, WithoutEntry(desk.reg, id)), heard + [Heard(p, true)])
    ensures forall x :: Answers(heard + [Heard(p, true)], false, x) == Answers(heard, false, x)
  {
    hide QueryBody, Envelope.AnsweredId, IdOf;
    var reg := WithoutEntry(desk.reg, id);
    forall x ensures Balanced(desk.lean.sent, reg, heard + [Heard(p, true)], x)
      && Answers(heard + [Heard(p, true)], false, x) == Answers(heard, false, x) {
      assert Balanced(desk.lean.sent, desk.reg, heard, x);
      AnswersSnoc(heard, Heard(p, true), true, x);
      AnswersSnoc(heard, Heard(p, true), false, x);
    }
    forall i | 0 <= i < |desk.lean.sent| ensures QueryHolds(desk.lean.sent[i], reg) {
      assert QueryHolds(desk.lean.sent[i], desk.reg);
    }
  }

  /** The forward branch: an answer whose id is not registered is owed to the client,
      because Lean answers no request twice. */
  lemma ForwardKeepsDesk(desk: Desk, heard: seq<Heard>, p: Packet)
    requires DeskHolds(desk, heard) && desk.lean.Valid()
    requires forall x :: Answers(heard, false, x) <= Asks(desk.lean.taken, false, x)
    requires MaySay(heard, desk.lean.taken, p)
    requires Envelope.AnsweredId(p.value).Some? ==> Envelope.AnsweredId(p.value).value !in desk.reg.table
    ensures DeskHolds(desk, heard + [Heard(p, false)])
    ensures forall x :: Answers(heard + [Heard(p, false)], false, x) <= Asks(desk.lean.taken, false, x)
  {
    hide QueryHolds, Envelope.AnsweredId;
    var h := Heard(p, false);
    var lean := desk.lean;
    forall x ensures Balanced(lean.sent, desk.reg, heard + [h], x)
      && Answers(heard + [h], false, x) <= Asks(lean.taken, false, x) {
      assert Balanced(lean.sent, desk.reg, heard, x);
      AnswersSnoc(heard, h, true, x);
      AnswersSnoc(heard, h, false, x);
      AsksAppend(lean.taken, lean.queue + lean.lost, true, x);
      assert lean.sent == lean.taken + (lean.queue + lean.lost);
    }
  }

  lemma HearKeepsIds(s: State, p: Packet)
    requires PipesHold(s) && IdsHold(s) && Enabled(s, ServerFrame(p))
    ensures IdsHold(Next(s, ServerFrame(p)))
  {
    HearShape(s, p);
    var desk := Desk(s.lean, s.reg);
    if Consumes(s, p) {
      ConsumeKeepsDesk(desk, s.heard, p, Envelope.AnsweredId(p.value).value);
    } else {
      ForwardKeepsDesk(desk, s.heard, p);
    }
    hide Next, Enabled, Unread, DeskHolds;
  }

  lemma StepKeepsIds(s: State, l: Label)
    requires Holds(s) && Enabled(s, l)
    ensures Holds(Next(s, l))
  {
    hide PipesHold;
    StepKeepsPipes(s, l);
    IssuedGrows(s, l);
    if Next(s, l).reg.issued < U64_RANGE {
      match l
      case ClientForward => ClientForwardKeepsIds(s);
      case SnoopFire(bodies, reserved) => FireKeepsIds(s, bodies, reserved);
      case LeanWriter(step) => LeanWriterKeepsIds(s, step);
      case ServerFrame(p) => HearKeepsIds(s, p);
      case _ =>
        hide ForwardClient, ObserveCopy, Fire, HearServer, WriterCan, WriterNext, DeskHolds, MaySay;
    }
  }

  lemma {:induction false} RunKeepsIds(s: State, labels: seq<Label>, t: State)
    requires Holds(s) && Run(s, labels, t)
    ensures Holds(t)
    decreases |labels|
  {
    if labels != [] {
      StepKeepsIds(s, labels[0]);
      RunKeepsIds(Next(s, labels[0]), labels[1..], t);
    }
  }

  lemma EveryRunHolds(triggers: seq<string>, labels: seq<Label>, t: State)
    requires Run(Init(triggers), labels, t)
    ensures Holds(t)
  {
    InitHolds(triggers);
    RunKeepsIds(Init(triggers), labels, t);
  }

  // ---- What it means for the client -------------------------------------------------

  lemma {:induction false} AnsweringAppend(a: seq<Packet>, b: seq<Packet>, x: string)
    ensures Answering(a + b, x) == Answering(a, x) + Answering(b, x)
  {
    if b == [] {
      assert a + b == a;
    } else {
      var init, last := b[..|b| - 1], b[|b| - 1];
      assert (a + b)[..|a + b| - 1] == a + init;
      AnsweringAppend(a, init, x);
    }
  }

  lemma {:induction false} AnsweringUnconsumed(heard: seq<Heard>, x: string)
    ensures Answering(Unconsumed(heard), x) == Answers(heard, false, x)
  {
    if heard != [] {
      var rest := Unconsumed(heard[..|heard| - 1]);
      AnsweringUnconsumed(heard[..|heard| - 1], x);
      AnsweringAppend(rest, [heard[|heard| - 1].packet], x);
      assert Answering([heard[|heard| - 1].packet], x) ==
        if Envelope.AnsweredId(heard[|heard| - 1].packet.value) == Some(x) then 1 else 0;
    }
  }

  /** The client asks under `x` in one of its frames. */
  predicate ClientUses(packets: seq<Packet>, x: string) {
    exists i :: 0 <= i < |packets| && Envelope.AskedId(packets[i].value) == Some(x)
  }

  lemma {:induction false} UnusedIdIsNotAsked(items: seq<Item>, x: string)
    requires !ClientUses(ClientOnly(items), x)
    ensures Asks(items, false, x) == 0
  {
    if items != [] {
      var init, last := items[..|items| - 1], items[|items| - 1];
      var rest := ClientOnly(init);
      assert forall i :: 0 <= i < |rest| ==> ClientOnly(items)[i] == rest[i];
      if last.origin.FromClient? {
        assert ClientOnly(items)[|rest|] == last.packet;
      }
      UnusedIdIsNotAsked(init, x);
    }
  }

  /** No leak: under any string id, the answers queued to the client never outnumber the
      client's own requests handed to Lean. In particular the client gets no answer at all
      under an id it never asked under, such as an injected one. */
  lemma NoAnswerLeaks(triggers: seq<string>, labels: seq<Label>, t: State, x: string)
    requires Run(Init(triggers), labels, t) && t.reg.issued < U64_RANGE
    ensures Answering(t.helix.sent, x) <= Asks(t.lean.taken, false, x)
    ensures !ClientUses(t.clientRead, x) ==>
      forall i :: 0 <= i < |t.helix.sent| ==> Envelope.AnsweredId(t.helix.sent[i].value) != Some(x)
  {
    EveryRunHolds(triggers, labels, t);
    AnsweringUnconsumed(t.heard, x);
    var passed, owed := t.helix.sent, Unconsumed(t.heard);
    assert owed == passed + owed[|passed|..];
    AnsweringAppend(passed, owed[|passed|..], x);
    if !ClientUses(t.clientRead, x) {
      UnusedIdIsNotTaken(t, x);
      NoneAnswering(passed, x);
    }
  }

  lemma UnusedIdIsNotTaken(s: State, x: string)
    requires PipesHold(s) && !ClientUses(s.clientRead, x)
    ensures Asks(s.lean.taken, false, x) == 0
  {
    hide Envelope.AskedId;
    var client := ClientOnly(s.lean.sent);
    assert forall i :: 0 <= i < |client| ==> s.clientRead[i] == client[i];
    UnusedIdIsNotAsked(s.lean.sent, x);
    AsksAppend(s.lean.taken, s.lean.queue + s.lean.lost, false, x);
    assert s.lean.sent == s.lean.taken + (s.lean.queue + s.lean.lost);
  }

  lemma {:induction false} NoneAnswering(packets: seq<Packet>, x: string)
    requires Answering(packets, x) == 0
    ensures forall i :: 0 <= i < |packets| ==> Envelope.AnsweredId(packets[i].value) != Some(x)
  {
    if packets != [] {
      NoneAnswering(packets[..|packets| - 1], x);
    }
  }

  /** The registry holds exactly the ids in flight: injected ones still queued, lost with a
      dead writer, or handed to Lean and not yet consumed; each mapped to its own query. */
  lemma RegistryIsInFlight(triggers: seq<string>, labels: seq<Label>, t: State, x: string)
    requires Run(Init(triggers), labels, t) && t.reg.issued < U64_RANGE
    ensures Answers(t.heard, true, x) <= 1
    ensures x in t.reg.table <==>
      Asks(t.lean.queue, true, x) + Asks(t.lean.lost, true, x)
      + Asks(t.lean.taken, true, x) - Answers(t.heard, true, x) == 1
    ensures forall i :: 0 <= i < |t.lean.sent| && t.lean.sent[i].origin.Injected? ==>
      var pending := t.lean.sent[i].origin.pending;
      IdOf(pending) in t.reg.table ==> t.reg.table[IdOf(pending)] == pending
  {
    EveryRunHolds(triggers, labels, t);
    assert Balanced(t.lean.sent, t.reg, t.heard, x);
    AsksAppend(t.lean.taken, t.lean.queue + t.lean.lost, true, x);
    AsksAppend(t.lean.queue, t.lean.lost, true, x);
    assert t.lean.sent == t.lean.taken + (t.lean.queue + t.lean.lost);
    forall i | 0 <= i < |t.lean.sent| ensures QueryHolds(t.lean.sent[i], t.reg) {
    }
  }

  /** The frames consumed so far. */
  function Withheld(heard: seq<Heard>): seq<Packet> {
    if heard == [] then []
    else
      var rest := Withheld(heard[..|heard| - 1]);
      if heard[|heard| - 1].consumed then rest + [heard[|heard| - 1].packet] else rest
  }

  lemma {:induction false} WithheldAnswers(heard: seq<Heard>, x: string)
    ensures Answering(Withheld(heard), x) == Answers(heard, true, x)
    ensures |heard| == |Withheld(heard)| + |Unconsumed(heard)|
  {
    if heard != [] {
      var rest := Withheld(heard[..|heard| - 1]);
      WithheldAnswers(heard[..|heard| - 1], x);
      AnsweringAppend(rest, [heard[|heard| - 1].packet], x);
      assert Answering([heard[|heard| - 1].packet], x) ==
        if Envelope.AnsweredId(heard[|heard| - 1].packet.value) == Some(x) then 1 else 0;
    }
  }

  // ---- What is withheld -------------------------------------------------------------

  /** A query under this id was queued to Lean. */
  ghost predicate WasInjected(sent: seq<Item>, x: string) {
    exists j :: 0 <= j < |sent| && sent[j].origin.Injected? && IdOf(sent[j].origin.pending) == x
  }

  /** Only queued queries are registered, and every frame consumed answered one. */
  ghost predicate WithheldHolds(s: State) {
    && (forall x :: x in s.reg.table ==> WasInjected(s.lean.sent, x))
    && (forall i :: 0 <= i < |s.heard| && s.heard[i].consumed ==>
          var id := Envelope.AnsweredId(s.heard[i].packet.value);
          id.Some? && WasInjected(s.lean.sent, id.value))
  }

  lemma InjectedGrows(sent: seq<Item>, items: seq<Item>, x: string)
    requires WasInjected(sent, x)
    ensures WasInjected(sent + items, x)
  {
    hide IdOf;
    var j :| 0 <= j < |sent| && sent[j].origin.Injected? && IdOf(sent[j].origin.pending) == x;
    assert (sent + items)[j] == sent[j];
  }

  ghost predicate TableInjected(desk: Desk) {
    forall x :: x in desk.reg.table ==> WasInjected(desk.lean.sent, x)
  }

  /** A query that is registered was pushed; one that was not is forgotten. */
  lemma InjectOneKeepsTable(desk: Desk, kind: QueryKind, doc: DocRef, position: Position, cause: seq<nat>, body: bytes,
                            reserved: bool)
    requires TableInjected(desk)
    ensures TableInjected(InjectOne(desk, kind, doc, position, cause, body, reserved))
  {
    hide IdOf, QueryBody, WasInjected;
    var pending := Pending(kind, doc, position, desk.reg.generation);
    var item := QueryItem(pending, cause, body);
    forall x | WasInjected(desk.lean.sent, x) ensures WasInjected(desk.lean.sent + [item], x) {
      InjectedGrows(desk.lean.sent, [item], x);
    }
    LastIsInjected(desk.lean.sent, item);
  }

  lemma LastIsInjected(sent: seq<Item>, item: Item)
    requires item.origin.Injected?
    ensures WasInjected(sent + [item], IdOf(item.origin.pending))
  {
    assert (sent + [item])[|sent|] == item;
  }

  lemma FireKeepsTable(s: State, bodies: (bytes, bytes), reserved: bool)
    requires PipesHold(s) && WithheldHolds(s) && Enabled(s, SnoopFire(bodies, reserved))
    ensures WithheldHolds(Next(s, SnoopFire(bodies, reserved)))
  {
    var t := Next(s, SnoopFire(bodies, reserved));
    var aim := s.snoop.pending.value;
    var desk := Desk(s.lean, s.reg);
    var ready := desk.(reg := OpenGeneration(desk.reg));
    InjectOneKeepsTable(ready, PlainGoal, aim.focus.doc, aim.focus.position, aim.cause, bodies.0, reserved);
    var first := InjectOne(ready, PlainGoal, aim.focus.doc, aim.focus.position, aim.cause, bodies.0, reserved);
    InjectOneKeepsTable(first, PlainTermGoal, aim.focus.doc, aim.focus.position, aim.cause, bodies.1, reserved);
    assert TableInjected(Desk(t.lean, t.reg));
    hide InjectOne, WasInjected, Envelope.AnsweredId;
    var items := InjectBothPushes(desk, aim.focus.doc, aim.focus.position, aim.cause, bodies, reserved);
    GrowthKeepsWithheld(s, t, items);
  }

  lemma GrowthKeepsWithheld(s: State, t: State, items: seq<Item>)
    requires WithheldHolds(s) && t.heard == s.heard && t.lean.sent == s.lean.sent + items
    requires forall x :: x in t.reg.table ==> WasInjected(t.lean.sent, x) || x in s.reg.table
    ensures WithheldHolds(t)
  {
    hide Envelope.AnsweredId, WasInjected;
    forall x | WasInjected(s.lean.sent, x) ensures WasInjected(t.lean.sent, x) {
      InjectedGrows(s.lean.sent, items, x);
    }
  }

  lemma HearKeepsWithheld(s: State, p: Packet)
    requires WithheldHolds(s) && Enabled(s, ServerFrame(p))
    ensures WithheldHolds(Next(s, ServerFrame(p)))
  {
    HearShape(s, p);
    hide Next, Enabled, Unread, WasInjected, Envelope.AnsweredId;
  }

  lemma StepKeepsWithheld(s: State, l: Label)
    requires PipesHold(s) && WithheldHolds(s) && Enabled(s, l)
    ensures WithheldHolds(Next(s, l))
  {
    match l
    case ClientForward =>
      hide PipesHold;
      GrowthKeepsWithheld(s, Next(s, l), [Item(s.c2s.packet, FromClient)]);
    case SnoopFire(bodies, reserved) => FireKeepsTable(s, bodies, reserved);
    case ServerFrame(p) => HearKeepsWithheld(s, p);
    case _ =>
      IdsUntouched(s, l);
      hide PipesHold, Next, Enabled, WasInjected, Envelope.AnsweredId;
  }

  /** The other steps leave the ids, what was heard and what was queued to Lean alone. */
  lemma IdsUntouched(s: State, l: Label)
    requires Enabled(s, l) && !l.ClientForward? && !l.SnoopFire? && !l.ServerFrame?
    ensures Next(s, l).reg == s.reg && Next(s, l).heard == s.heard && Next(s, l).lean.sent == s.lean.sent
  {
    hide ObserveCopy, MaySay, Tee.TeeUpdate;
  }

  lemma {:induction false} RunKeepsWithheld(s: State, labels: seq<Label>, t: State)
    requires PipesHold(s) && WithheldHolds(s) && Run(s, labels, t)
    ensures WithheldHolds(t)
    decreases |labels|
  {
    if labels != [] {
      hide PipesHold, WithheldHolds;
      StepKeepsPipes(s, labels[0]);
      StepKeepsWithheld(s, labels[0]);
      hide Next, Enabled;
      RunKeepsWithheld(Next(s, labels[0]), labels[1..], t);
    }
  }

  /** Each match counts. */
  lemma {:induction false} AnswersCount(heard: seq<Heard>, consumed: bool, x: string, i: nat, j: nat)
    requires i <= j < |heard| && heard[i].consumed == heard[j].consumed == consumed
    requires Envelope.AnsweredId(heard[i].packet.value) == Envelope.AnsweredId(heard[j].packet.value) == Some(x)
    ensures Answers(heard, consumed, x) >= if i == j then 1 else 2
  {
    hide Envelope.AnsweredId;
    var init := heard[..|heard| - 1];
    if j < |heard| - 1 {
      AnswersCount(init, consumed, x, i, j);
    } else if i < j {
      AnswersCount(init, consumed, x, i, i);
    }
  }

  /** The frame at place `i` of those heard was not consumed: it is queued to the client at
      its own place, or it is the last one, held by the pump or lost when the pump ended. */
  ghost predicate PassedOnAt(s: State, i: int)
    requires 0 <= i < |s.heard|
  {
    var k := |Unconsumed(s.heard[..i])|;
    || (k < |s.helix.sent| && s.helix.sent[k] == s.heard[i].packet)
    || (k == |s.helix.sent| && (s.s2c == Sending(s.heard[i].packet) || s.s2c.Done?))
  }

  lemma {:induction false} UnconsumedPlace(heard: seq<Heard>, i: nat)
    requires i < |heard| && !heard[i].consumed
    ensures
      var k := |Unconsumed(heard[..i])|;
      k < |Unconsumed(heard)| && Unconsumed(heard)[k] == heard[i].packet
  {
    var init := heard[..|heard| - 1];
    if i < |heard| - 1 {
      UnconsumedPlace(init, i);
      assert init[..i] == heard[..i];
    } else {
      assert heard[..i] == init;
    }
  }

  /** Nothing else is withheld. In every run, every frame consumed answered, as a response
      with a string id, a query that was injected under that id; every other frame read was
      queued to the client in its order, except for at most the last one, which the pump
      holds or lost as it ended. So no notification, no request and no answer under a
      numeric id or one never injected is ever consumed. While no generation number has
      come round again, no two frames are consumed under one id. */
  lemma NothingElseWithheld(triggers: seq<string>, labels: seq<Label>, t: State)
    requires Run(Init(triggers), labels, t)
    ensures forall i :: 0 <= i < |t.heard| && t.heard[i].consumed ==>
      var id := Envelope.AnsweredId(t.heard[i].packet.value);
      id.Some? && WasInjected(t.lean.sent, id.value)
    ensures forall i :: 0 <= i < |t.heard| && !t.heard[i].consumed ==> PassedOnAt(t, i)
    ensures |t.helix.sent| + |Withheld(t.heard)| <= |t.heard| <= |t.helix.sent| + |Withheld(t.heard)| + 1
    ensures t.s2c.Reading? ==> |t.heard| == |t.helix.sent| + |Withheld(t.heard)|
    ensures t.reg.issued < U64_RANGE ==>
      forall i, j :: 0 <= i < j < |t.heard| && t.heard[i].consumed && t.heard[j].consumed ==>
        Envelope.AnsweredId(t.heard[i].packet.value) != Envelope.AnsweredId(t.heard[j].packet.value)
    ensures t.reg.issued < U64_RANGE ==>
      forall x :: Answering(Withheld(t.heard), x) <= Asks(t.lean.sent, true, x) <= 1
  {
    hide Run, Envelope.AnsweredId, WasInjected, IdOf, QueryHolds;
    EveryRunHolds(triggers, labels, t);
    InitHolds(triggers);
    RunKeepsWithheld(Init(triggers), labels, t);
    forall x
      ensures |t.heard| == |Withheld(t.heard)| + |Unconsumed(t.heard)|
      ensures t.reg.issued < U64_RANGE ==> Answering(Withheld(t.heard), x) <= Asks(t.lean.sent, true, x) <= 1
    {
      WithheldAnswers(t.heard, x);
      if t.reg.issued < U64_RANGE {
        assert Balanced(t.lean.sent, t.reg, t.heard, x);
      }
    }
    WithheldAnswers(t.heard, "");
    forall i | 0 <= i < |t.heard| && !t.heard[i].consumed ensures PassedOnAt(t, i) {
      UnconsumedPlace(t.heard, i);
    }
    if t.reg.issued < U64_RANGE {
      forall i, j | 0 <= i < j < |t.heard| && t.heard[i].consumed && t.heard[j].consumed
        ensures Envelope.AnsweredId(t.heard[i].packet.value) != Envelope.AnsweredId(t.heard[j].packet.value)
      {
        var id := Envelope.AnsweredId(t.heard[i].packet.value);
        if id == Envelope.AnsweredId(t.heard[j].packet.value) {
          assert Balanced(t.lean.sent, t.reg, t.heard, id.value);
          AnswersCount(t.heard, true, id.value, i, j);
        }
      }
    }
  }

  /** A notification, a request, an answer under a numeric id, and an answer under an id
      never injected: each was queued to the client, or the pump holds it or lost it. */
  lemma EverythingElsePassesOn(triggers: seq<string>, labels: seq<Label>, t: State, i: nat)
    requires Run(Init(triggers), labels, t) && i < |t.heard|
    requires
      var id := Envelope.AnsweredId(t.heard[i].packet.value);
      id.None? || !WasInjected(t.lean.sent, id.value)
    ensures !t.heard[i].consumed && PassedOnAt(t, i)
  {
    hide Run, PassedOnAt, WasInjected, Envelope.AnsweredId;
    NothingElseWithheld(triggers, labels, t);
  }

  /** Exactly when a frame is withheld as it is heard: when it answers a string id whose
      registration stands, which, while no generation number has come round again, means
      that a query was injected under that id and no answer to it consumed so far. The
      client's own answers are no exception. */
  lemma WithheldIffOutstanding(triggers: seq<string>, labels: seq<Label>, t: State, p: Packet)
    requires Run(Init(triggers), labels, t) && Enabled(t, ServerFrame(p))
    ensures
      var id, u := Envelope.AnsweredId(p.value), Next(t, ServerFrame(p));
      var withheld := id.Some? && id.value in t.reg.table;
      && u.heard == t.heard + [Heard(p, withheld)]
      && u.s2c == (if withheld then t.s2c else Sending(p))
      && (id.Some? && t.reg.issued < U64_RANGE ==>
            (withheld <==> Asks(t.lean.sent, true, id.value) == 1 && Answers(t.heard, true, id.value) == 0))
  {
    hide Run, Envelope.AnsweredId;
    EveryRunHolds(triggers, labels, t);
    HearShape(t, p);
    hide Next, Enabled;
    var id := Envelope.AnsweredId(p.value);
    if id.Some? && t.reg.issued < U64_RANGE {
      assert Balanced(t.lean.sent, t.reg, t.heard, id.value);
    }
  }
}
