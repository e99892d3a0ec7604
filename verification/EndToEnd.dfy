/** The whole way of one focus: a client message that points at a position in an open document
    can be followed, without any other message, to where Lean was handed it and both goal
    queries, and Lean's answers are what the snapshot shows. */
module EndToEnd {
  import opened Prelude
  import opened Json
  import opened Wire
  import opened StateStore
  import opened Query
  import opened Channel
  import opened Snoop
  import opened Forward
  import opened Pipes
  import opened NoLeak
  import Codec
  import Envelope
  import Shutdown
  import Tee

  /** A copy of every forwarded client message is offered to the snoop, and taken unless the
      snoop is gone or 256 copies wait already. */
  lemma CopiesExactly(s: State)
    requires s.c2s.Sending?
    ensures
      var t, copy := ForwardClient(s), Copy(s.c2s.packet.value, |s.lean.sent|);
      && t.lean.sent == s.lean.sent + [Item(s.c2s.packet, FromClient)]
      && t.snoop.inbox == s.snoop.inbox + if s.snoop.alive && |s.snoop.inbox| < 256 then [copy] else []
  {
  }

  /** Serving, with nothing under way: no frame in a pump's hand, no copy unobserved, nothing
      queued to Lean. A focus may be waiting. */
  predicate Quiet(s: State) {
    && s.control.Serving? && s.c2s.Reading? && s.s2c.Reading? && s.rest.None?
    && s.snoop.alive && s.snoop.inbox == []
    && s.lean.writer.Receiving? && s.lean.queue == []
  }

  /** What the client's message and the quiet period after it put in the queue to Lean. */
  function Asked(s: State, p: Packet, f: Focus, bodies: (bytes, bytes)): seq<Item> {
    var g, cause := Increment(s.reg.generation), s.snoop.observed + [|s.lean.sent|];
    [Item(p, FromClient),
     QueryItem(Pending(PlainGoal, f.doc, f.position, g), cause, bodies.0),
     QueryItem(Pending(PlainTermGoal, f.doc, f.position, g), cause, bodies.1)]
  }

  /** Both queries stand registered, in the latest generation. */
  predicate Awaited(s: State, goal: Pending, term: Pending) {
    && IdOf(goal) in s.reg.table && s.reg.table[IdOf(goal)] == goal
    && IdOf(term) in s.reg.table && s.reg.table[IdOf(term)] == term
    && goal.generation == term.generation == s.reg.generation
  }

  /** The message is read, queued and observed, and its focus fires. */
  lemma Ask(s: State, p: Packet, f: Focus, bodies: (bytes, bytes)) returns (labels: seq<Label>, t: State)
    requires Quiet(s) && FocusOf(s.triggers, s.snoop.session, p.value) == Some(f)
    ensures Run(s, labels, t)
    ensures
      var items := Asked(s, p, f, bodies);
      && t.lean == s.lean.(sent := s.lean.sent + items, queue := items)
      && Awaited(t, items[1].origin.pending, items[2].origin.pending)
      && t.heard == s.heard && t.helix == s.helix && t.log == s.log
      && Quiet(t.(lean := s.lean))
  {
    hide After, FocusOf, MaySay, Run, QueryBody, InjectBoth;
    var copied := Received(s, p);
    var seen := Next(copied, SnoopReceive);
    labels := [ClientFrame(p), ClientForward, SnoopReceive, SnoopFire(bodies, false)];
    t := Next(seen, SnoopFire(bodies, false));
    FourSteps(s, labels, Next(s, ClientFrame(p)), copied, seen);
    var cause := s.snoop.observed + [|s.lean.sent|];
    RequestInjectsBoth(Desk(seen.lean, seen.reg), f.doc, f.position, cause, bodies, false);
    var g := Increment(s.reg.generation);
    InjectedIdInjective(g, PlainGoal, g, PlainTermGoal);
    var items := Asked(s, p, f, bodies);
    assert items == [items[0]] + [items[1], items[2]];
    assert t.lean.sent == s.lean.sent + [items[0]] + [items[1], items[2]];
    assert t.lean.sent == s.lean.sent + items;
  }

  lemma Received(s: State, p: Packet) returns (t: State)
    requires Quiet(s)
    ensures t == Next(Next(s, ClientFrame(p)), ClientForward)
    ensures t.lean == s.lean.Push(Item(p, FromClient))
    ensures t.snoop == s.snoop.(inbox := [Copy(p.value, |s.lean.sent|)])
    ensures t == s.(clientRead := t.clientRead, lean := t.lean, snoop := t.snoop)
  {
    t := Next(Next(s, ClientFrame(p)), ClientForward);
  }

  lemma FourSteps(s: State, labels: seq<Label>, a: State, b: State, c: State)
    requires |labels| == 4 && Enabled(s, labels[0]) && a == Next(s, labels[0])
    requires Enabled(a, labels[1]) && b == Next(a, labels[1])
    requires Enabled(b, labels[2]) && c == Next(b, labels[2])
    requires Enabled(c, labels[3])
    ensures Run(s, labels, Next(c, labels[3]))
  {
    hide Next, Enabled;
    RunNothing(s);
    RunSnoc(s, [], s, labels[0]);
    RunSnoc(s, [labels[0]], a, labels[1]);
    RunSnoc(s, [labels[0], labels[1]], b, labels[2]);
    RunSnoc(s, [labels[0], labels[1], labels[2]], c, labels[3]);
    assert [] + [labels[0]] == [labels[0]];
    assert [labels[0]] + [labels[1]] == [labels[0], labels[1]];
    assert [labels[0], labels[1]] + [labels[2]] == [labels[0], labels[1], labels[2]];
    assert [labels[0], labels[1], labels[2]] + [labels[3]] == labels;
  }

  lemma RunNothing(s: State)
    ensures Run(s, [], s)
  {
  }

  /** The writer takes the oldest frame and writes it, and so on until the queue is empty. */
  lemma {:induction false} WriteAll(start: State, labels: seq<Label>, s: State) returns (more: seq<Label>, t: State)
    requires Run(start, labels, s) && s.lean.writer.Receiving? && !s.control.Exited?
    ensures Run(start, more, t)
    ensures t == s.(lean := s.lean.(taken := s.lean.taken + s.lean.queue, queue := []))
    decreases |s.lean.queue|
  {
    hide Run, MaySay;
    if s.lean.queue == [] {
      assert s.lean.taken + [] == s.lean.taken;
      more, t := labels, s;
    } else {
      var take, wrote := LeanWriter(Take), LeanWriter(WriterStep.Wrote);
      var u := Next(s, take);
      RunSnoc(start, labels, s, take);
      var v := Next(u, wrote);
      RunSnoc(start, labels + [take], u, wrote);
      assert s.lean.taken + [s.lean.queue[0]] + s.lean.queue[1..] == s.lean.taken + s.lean.queue;
      more, t := WriteAll(start, labels + [take] + [wrote], v);
    }
  }

  /** Lean answers a query that stands registered in the latest generation: the answer is
      consumed and folded in. */
  lemma HearAnswer(start: State, labels: seq<Label>, s: State, pending: Pending, p: Packet) returns (t: State)
    requires Run(start, labels, s) && s.s2c.Reading? && s.rest.None? && !s.control.Exited?
    requires Envelope.AnsweredId(p.value) == Some(IdOf(pending)) && MaySay(s.heard, s.lean.taken, p)
    requires IdOf(pending) in s.reg.table && s.reg.table[IdOf(pending)] == pending
    requires pending.generation == s.reg.generation
    ensures Run(start, labels + [ServerFrame(p)], t)
    ensures t.heard == s.heard + [Heard(p, true)] && t.log == s.log + [AnswerUpdate(pending, p.value.value)]
    ensures t.reg == WithoutEntry(s.reg, IdOf(pending))
    ensures t == s.(heard := t.heard, log := t.log, reg := t.reg, applied := t.applied)
  {
    hide Run, MaySay, AnswerUpdate, Envelope.AnsweredId, IdOf;
    t := Next(s, ServerFrame(p));
    RunSnoc(start, labels, s, ServerFrame(p));
  }

  /** How often an id was asked under rises with each query under it. */
  lemma AskedMore(taken: seq<Item>, items: seq<Item>, pending: Pending, i: nat)
    requires i < |items| && items[i].origin.Injected? && items[i].packet.value == Some(QueryBody(pending))
    ensures Asks(taken + items, true, IdOf(pending)) > Asks(taken, true, IdOf(pending))
    ensures Asks(taken + items, false, IdOf(pending)) >= Asks(taken, false, IdOf(pending))
  {
    var x := IdOf(pending);
    QueryBodyAsks(pending);
    hide QueryBody, IdOf, Envelope.AskedId;
    AsksAppend(taken, items, true, x);
    AsksAppend(taken, items, false, x);
    assert items == items[..i] + [items[i]] + items[i + 1..];
    AsksAppend(items[..i] + [items[i]], items[i + 1..], true, x);
    AsksSnoc(items[..i], items[i], true, x);
  }

  /** Having asked, Lean may answer, if nothing more was heard under that id since. */
  lemma MayAnswer(heard: seq<Heard>, taken: seq<Item>, items: seq<Item>, pending: Pending, i: nat, p: Packet,
                  later: seq<Heard>)
    requires SaidBeforeExit(heard, taken, [])
    requires i < |items| && items[i].origin.Injected? && items[i].packet.value == Some(QueryBody(pending))
    requires Envelope.AnsweredId(p.value) == Some(IdOf(pending))
    requires later == [] || (|later| == 1 && Envelope.AnsweredId(later[0].packet.value) != Some(IdOf(pending)))
    ensures MaySay(heard + later, taken + items, p)
  {
    hide QueryBody, IdOf, Envelope.AnsweredId;
    var x := IdOf(pending);
    AskedMore(taken, items, pending, i);
    assert Answers(heard, true, x) + Answers(heard, false, x) + Answering([], x)
      <= Asks(taken, true, x) + Asks(taken, false, x);
    if later == [] {
      assert heard + later == heard;
    } else {
      assert later == [later[0]];
      AnswersSnoc(heard, later[0], true, x);
      AnswersSnoc(heard, later[0], false, x);
    }
  }

  /** From any quiet state of any run: when the client sends a message that points at a focus,
      the proxy can go on, with nothing more from the client, to where Lean was written that
      message and then both queries for the focus; and when Lean answers them, to where the
      client was sent nothing of it and the snapshot shows that document and position with
      what the answers say. */
  lemma FocusReachesSnapshot(triggers: seq<string>, history: seq<Label>, s: State, p: Packet, f: Focus,
                             bodies: (bytes, bytes), goalAnswer: Packet, termAnswer: Packet)
    returns (labels: seq<Label>, t: State)
    requires Run(Init(triggers), history, s) && Quiet(s)
    requires FocusOf(s.triggers, s.snoop.session, p.value) == Some(f)
    requires
      var items := Asked(s, p, f, bodies);
      && Envelope.AnsweredId(goalAnswer.value) == Some(IdOf(items[1].origin.pending))
      && Envelope.AnsweredId(termAnswer.value) == Some(IdOf(items[2].origin.pending))
    ensures Run(s, labels, t) && Quiet(t)
    ensures t.lean.Written() == s.lean.Written() + Asked(s, p, f, bodies)
    ensures t.heard == s.heard + [Heard(goalAnswer, true), Heard(termAnswer, true)] && t.helix == s.helix
    ensures
      var items, snap := Asked(s, p, f, bodies), Fold(t.log);
      && t.log == s.log + [AnswerUpdate(items[1].origin.pending, goalAnswer.value.value),
                           AnswerUpdate(items[2].origin.pending, termAnswer.value.value)]
      && snap.doc == Some(f.doc) && snap.position == Some(f.position)
      && Shows(snap, GoalSlot, Some(AnswerUpdate(items[1].origin.pending, goalAnswer.value.value)))
      && Shows(snap, TermSlot, Some(AnswerUpdate(items[2].origin.pending, termAnswer.value.value)))
  {
    var items := Asked(s, p, f, bodies);
    var goal, term := items[1].origin.pending, items[2].origin.pending;
    InjectedIdInjective(goal.generation, PlainGoal, goal.generation, PlainTermGoal);
    ReachedFacts(triggers, history, s);
    hide Run, PipesHold, SaidBeforeExit, MaySay, FocusOf, QueryBody, IdOf, AnswerUpdate, Envelope.AnsweredId;
    hide Fold, Shows;
    var l1, asked := Ask(s, p, f, bodies);
    var l2, written := WriteAll(s, l1, asked);
    var u, v := AnswerUpdate(goal, goalAnswer.value.value), AnswerUpdate(term, termAnswer.value.value);
    labels, t := Answered(s, l2, written, items, goalAnswer, termAnswer);
    assert s.log + [u, v] == s.log + [u] + [v];
    TwoAnswersShow(s.log, u, v, f);
  }

  /** Both answers, once the queries were written. */
  lemma Answered(s: State, labels: seq<Label>, written: State, items: seq<Item>, goalAnswer: Packet, termAnswer: Packet)
    returns (more: seq<Label>, t: State)
    requires Run(s, labels, written) && written.s2c.Reading? && written.rest.None? && !written.control.Exited?
    requires written.heard == s.heard && written.lean.taken == s.lean.taken + items
    requires SaidBeforeExit(s.heard, s.lean.taken, [])
    requires |items| == 3 && items[1].origin.Injected? && items[2].origin.Injected?
    requires
      var goal, term := items[1].origin.pending, items[2].origin.pending;
      && items[1].packet.value == Some(QueryBody(goal)) && items[2].packet.value == Some(QueryBody(term))
      && Awaited(written, goal, term) && IdOf(goal) != IdOf(term)
      && Envelope.AnsweredId(goalAnswer.value) == Some(IdOf(goal))
      && Envelope.AnsweredId(termAnswer.value) == Some(IdOf(term))
    ensures Run(s, more, t)
    ensures t.heard == s.heard + [Heard(goalAnswer, true), Heard(termAnswer, true)]
    ensures t.log == written.log + [AnswerUpdate(items[1].origin.pending, goalAnswer.value.value),
                                    AnswerUpdate(items[2].origin.pending, termAnswer.value.value)]
    ensures t == written.(heard := t.heard, log := t.log, reg := t.reg, applied := t.applied)
  {
    hide Run, SaidBeforeExit, MaySay, QueryBody, IdOf, AnswerUpdate, Envelope.AnsweredId;
    var goal, term := items[1].origin.pending, items[2].origin.pending;
    MayAnswer(s.heard, s.lean.taken, items, goal, 1, goalAnswer, []);
    assert s.heard + [] == s.heard;
    var once := HearAnswer(s, labels, written, goal, goalAnswer);
    MayAnswer(s.heard, s.lean.taken, items, term, 2, termAnswer, [Heard(goalAnswer, true)]);
    t := HearAnswer(s, labels + [ServerFrame(goalAnswer)], once, term, termAnswer);
    more := labels + [ServerFrame(goalAnswer)] + [ServerFrame(termAnswer)];
    assert t.heard == s.heard + [Heard(goalAnswer, true), Heard(termAnswer, true)];
    assert t.log == written.log + [AnswerUpdate(goal, goalAnswer.value.value)]
      + [AnswerUpdate(term, termAnswer.value.value)];
  }

  /** In a quiet state of a run everything queued was written, and Lean said no more than it
      was asked. */
  lemma ReachedFacts(triggers: seq<string>, history: seq<Label>, s: State)
    requires Run(Init(triggers), history, s) && Quiet(s)
    ensures s.lean.taken == s.lean.sent == s.lean.Written() && SaidBeforeExit(s.heard, s.lean.taken, [])
  {
    EveryRunRefinesPipes(triggers, history, s);
    hide Run;
    Shutdown.RunKeepsWithinAsked(Init(triggers), history, s);
  }

  lemma TwoAnswersShow(log: seq<Update>, u: Update, v: Update, f: Focus)
    requires u.SetGoal? && v.SetTerm? && u.doc == v.doc == f.doc && u.position == v.position == f.position
    ensures
      var snap := Fold(log + [u] + [v]);
      && snap.doc == Some(f.doc) && snap.position == Some(f.position)
      && Shows(snap, GoalSlot, Some(u)) && Shows(snap, TermSlot, Some(v))
  {
    FoldSnoc(log, u);
    FoldSnoc(log + [u], v);
    hide Fold;
  }
}
