/** The three ways down: the client closes first, Lean closes first, or a signal arrives.
    Once the child is reaped, what is left to do is bounded, some task can always do it,
    and at the end every frame accepted into a queue was written whole, unless a write
    failed. */
module Shutdown {
  import opened Prelude
  import opened Query
  import opened Channel
  import opened Forward
  import opened Pipes
  import opened NoLeak
  import Envelope

  // ---- The control path -------------------------------------------------------------------

  predicate Reaped(s: State) { s.rest.Some? }

  predicate Draining(s: State) { s.control in {DrainingLean, DrainingHelix, Exited} }

  /** What each stage of the shutdown relies on. */
  ghost predicate ControlHolds(s: State) {
    && (Reaped(s) <==> s.control.Joining? || Draining(s))
    && (Reaped(s) || s.control in {Reaping(ClientFirst), Reaping(Signalled)} ==> s.c2s.Done?)
    && (s.control == Reaping(ServerFirst) ==> s.s2c.Done?)
    && (Draining(s) ==> !s.snoop.alive)
    && (s.control in {DrainingHelix, Exited} ==> s.lean.writer.Closed?)
    && (s.control.Exited? ==> s.helix.writer.Closed?)
    && (Reaped(s) ==> SaidBeforeExit(s.heard, s.lean.taken, s.rest.value))
  }

  ghost predicate Sound(s: State) { PipesHold(s) && ControlHolds(s) }

  lemma HearKeepsLeftover(s: State, p: Packet)
    requires ControlHolds(s) && Reaped(s) && Enabled(s, ServerFrame(p))
    ensures
      var t := Next(s, ServerFrame(p));
      SaidBeforeExit(t.heard, t.lean.taken, t.rest.value)
  {
    HearShape(s, p);
    var t := Next(s, ServerFrame(p));
    var h := Heard(p, Consumes(s, p));
    assert s.rest.value == [p] + t.rest.value;
    hide Next, Enabled, Consumes, Envelope.AnsweredId;
    forall x
      ensures Answers(t.heard, true, x) + Answers(t.heard, false, x) + Answering(t.rest.value, x)
        <= Asks(t.lean.taken, true, x) + Asks(t.lean.taken, false, x)
    {
      AnswersSnoc(s.heard, h, true, x);
      AnswersSnoc(s.heard, h, false, x);
      AnsweringAppend([p], t.rest.value, x);
      AnsweringOne(p, x);
    }
  }

  lemma AnsweringOne(p: Packet, x: string)
    ensures Answering([p], x) == if Envelope.AnsweredId(p.value) == Some(x) then 1 else 0
  {
    assert [p][..0] == [];
  }

  lemma TakeKeepsLeftover(s: State, step: WriterStep)
    requires ControlHolds(s) && Reaped(s) && Enabled(s, LeanWriter(step))
    ensures SaidBeforeExit(s.heard, Next(s, LeanWriter(step)).lean.taken, s.rest.value)
  {
    var t := Next(s, LeanWriter(step));
    if step.Take? {
      forall x ensures Answers(s.heard, true, x) + Answers(s.heard, false, x) + Answering(s.rest.value, x)
        <= Asks(t.lean.taken, true, x) + Asks(t.lean.taken, false, x) {
        AsksSnoc(s.lean.taken, s.lean.queue[0], true, x);
        AsksSnoc(s.lean.taken, s.lean.queue[0], false, x);
      }
    }
  }

  lemma StepKeepsControl(s: State, l: Label)
    requires Sound(s) && Enabled(s, l)
    ensures ControlHolds(Next(s, l))
  {
    match l
    case ServerFrame(p) =>
      HearShape(s, p);
      if Reaped(s) {
        HearKeepsLeftover(s, p);
      }
      hide Next, PipesHold, Consumes, SaidBeforeExit;
    case LeanWriter(step) =>
      if Reaped(s) {
        TakeKeepsLeftover(s, step);
      }
      hide PipesHold, SaidBeforeExit;
    case SnoopFire(bodies, reserved) => FireKeepsControl(s, bodies, reserved);
    case _ =>
      hide PipesHold, SaidBeforeExit, MaySay, HearServer, ObserveCopy, InjectBoth;
      PlainStepKeepsControl(s, l);
  }

  lemma FireKeepsControl(s: State, bodies: (bytes, bytes), reserved: bool)
    requires Sound(s) && Enabled(s, SnoopFire(bodies, reserved))
    ensures ControlHolds(Next(s, SnoopFire(bodies, reserved)))
  {
    hide InjectBoth, SaidBeforeExit;
    var aim := s.snoop.pending.value;
    var items := InjectBothPushes(Desk(s.lean, s.reg), aim.focus.doc, aim.focus.position, aim.cause, bodies, reserved);
  }

  lemma PlainStepKeepsControl(s: State, l: Label)
    requires ControlHolds(s) && Enabled(s, l)
    requires !l.ServerFrame? && !l.LeanWriter? && !l.SnoopFire?
    ensures ControlHolds(Next(s, l))
  {
    hide SaidBeforeExit, MaySay, HearServer, InjectBoth;
  }

  lemma {:induction false} RunKeepsSound(s: State, labels: seq<Label>, t: State)
    requires Sound(s) && Run(s, labels, t)
    ensures Sound(t)
    decreases |labels|
  {
    if labels != [] {
      hide PipesHold, ControlHolds;
      StepKeepsPipes(s, labels[0]);
      StepKeepsControl(s, labels[0]);
      hide Next, Enabled;
      RunKeepsSound(Next(s, labels[0]), labels[1..], t);
    }
  }

  lemma EveryRunIsSound(triggers: seq<string>, labels: seq<Label>, t: State)
    requires Run(Init(triggers), labels, t)
    ensures Sound(t)
  {
    hide Run, PipesHold;
    InitHolds(triggers);
    RunKeepsSound(Init(triggers), labels, t);
  }

  // ---- What is left to do -----------------------------------------------------------------

  function PumpWork(pump: Pump): nat {
    match pump
    case Reading => 1
    case Sending(_) => 4
    case Done => 0
  }

  function WriterWork(w: Writer): nat {
    match w
    case Receiving => 2
    case Writing => 3
    case Closing(_) => 1
    case Closed(_) => 0
  }

  function ControlWork(c: Control): nat {
    match c
    case Joining => 3
    case DrainingLean => 2
    case DrainingHelix => 1
    case _ => 0
  }

  function SinkWork<T>(s: Sink<T>): nat { 2 * |s.queue| + WriterWork(s.writer) }

  function SnoopWork(t: SnoopTask): nat {
    6 * |t.inbox| + (if t.pending.Some? then 5 else 0) + (if t.alive then 1 else 0)
  }

  /** Frames still to be read, queued or written, focuses still to fire, tasks still live. */
  function Work(s: State): nat
    requires Reaped(s)
  {
    4 * |s.rest.value| + PumpWork(s.s2c) + SinkWork(s.helix) + SinkWork(s.lean) + SnoopWork(s.snoop)
    + ControlWork(s.control)
  }

  lemma WriterStepIsWork<T>(s: Sink<T>, senders: bool, step: WriterStep)
    requires WriterCan(s, senders, step)
    ensures SinkWork(WriterNext(s, senders, step)) < SinkWork(s)
  {
  }

  /** A request adds at most two queued frames. */
  lemma FireIsWork(s: State, bodies: (bytes, bytes), reserved: bool)
    requires Sound(s) && Enabled(s, SnoopFire(bodies, reserved))
    ensures
      var t := Next(s, SnoopFire(bodies, reserved));
      SinkWork(t.lean) + SnoopWork(t.snoop) < SinkWork(s.lean) + SnoopWork(s.snoop)
  {
    hide InjectBoth;
    var aim := s.snoop.pending.value;
    var items := InjectBothPushes(Desk(s.lean, s.reg), aim.focus.doc, aim.focus.position, aim.cause, bodies, reserved);
    if |items| > 2 {
      DistinctKinds(items[0].origin.pending.kind, items[1].origin.pending.kind, items[2].origin.pending.kind);
    }
  }

  lemma DistinctKinds(a: QueryKind, b: QueryKind, c: QueryKind)
    ensures a == b || b == c || a == c
  {
  }

  /** Once the child is reaped, every step of every task leaves less to do. */
  lemma StepIsWork(s: State, l: Label)
    requires Sound(s) && Reaped(s) && Enabled(s, l)
    ensures Reaped(Next(s, l)) && Work(Next(s, l)) < Work(s)
  {
    match l
    case LeanWriter(step) =>
      hide SnoopWork;
      WriterStepIsWork(s.lean, LeanSenders(s), step);
      hide SinkWork;
    case HelixWriter(step) =>
      hide SnoopWork;
      WriterStepIsWork(s.helix, HelixSenders(s), step);
      hide SinkWork;
    case SnoopFire(bodies, reserved) =>
      FireIsWork(s, bodies, reserved);
      hide SinkWork, SnoopWork, InjectBoth;
    case ServerFrame(p) =>
      HearShape(s, p);
      hide Next, Consumes, SinkWork, SnoopWork;
    case _ =>
      hide PipesHold, MaySay;
  }

  /** A shutdown takes at most as many steps as there was work when the child was reaped,
      for every interleaving of the tasks. */
  lemma {:induction false} ShutdownIsBounded(s: State, labels: seq<Label>, t: State)
    requires Sound(s) && Reaped(s) && Run(s, labels, t)
    ensures Reaped(t) && |labels| + Work(t) <= Work(s)
    decreases |labels|
  {
    if labels != [] {
      hide PipesHold, ControlHolds, Work;
      StepKeepsPipes(s, labels[0]);
      StepKeepsControl(s, labels[0]);
      StepIsWork(s, labels[0]);
      hide Next, Enabled;
      ShutdownIsBounded(Next(s, labels[0]), labels[1..], t);
    }
  }

  // ---- Something can always be done ---------------------------------------------------------

  lemma WriterCanMove<T>(s: Sink<T>, senders: bool) returns (step: WriterStep)
    requires s.Valid() && !s.writer.Closed?
    requires s.writer.Receiving? && s.queue == [] ==> !senders
    ensures WriterCan(s, senders, step)
  {
    match s.writer
    case Receiving => step := if |s.queue| > 0 then Take else Drain;
    case Writing => step := Wrote;
    case Closing(_) => step := Shut;
  }

  /** The server pump can read on, end at the end of the output, or pass on its frame. */
  lemma ServerPumpCanMove(s: State) returns (l: Label)
    requires Sound(s) && Reaped(s) && !s.control.Exited? && !s.s2c.Done?
    requires s.helix.HasRoom() || s.helix.writer.Closed?
    ensures Enabled(s, l)
  {
    match s.s2c
    case Sending(_) => l := if s.helix.writer.Closed? then ServerSendFails else ServerForward;
    case Reading =>
      if s.rest.value == [] {
        l := ServerEnds;
      } else {
        var p := s.rest.value[0];
        l := ServerFrame(p);
        LeftoverMayBeSaid(s, p);
      }
  }

  lemma LeftoverMayBeSaid(s: State, p: Packet)
    requires ControlHolds(s) && Reaped(s) && s.rest.value != [] && s.rest.value[0] == p
    ensures MaySay(s.heard, s.lean.taken, p)
  {
    hide Envelope.AnsweredId;
    match Envelope.AnsweredId(p.value)
    case None =>
    case Some(x) =>
      assert s.rest.value == [p] + s.rest.value[1..];
      AnsweringAppend([p], s.rest.value[1..], x);
      AnsweringOne(p, x);
      assert Answers(s.heard, true, x) + Answers(s.heard, false, x) + Answering(s.rest.value, x)
        <= Asks(s.lean.taken, true, x) + Asks(s.lean.taken, false, x);
  }

  /** After the child is reaped and until the proxy has exited, some task can step: with
      the bound on steps, every fair continuation reaches the exit. */
  lemma ShutdownNeverSticks(s: State) returns (l: Label)
    requires Sound(s) && Reaped(s) && !s.control.Exited?
    ensures Enabled(s, l)
  {
    hide SaidBeforeExit, MaySay, ClientOnly, Unconsumed;
    if !s.lean.writer.Closed? && (s.lean.writer.Receiving? && s.lean.queue == [] ==> !s.snoop.alive) {
      var step := WriterCanMove(s.lean, LeanSenders(s));
      l := LeanWriter(step);
    } else if !s.lean.writer.Closed? {
      l := if |s.snoop.inbox| > 0 then SnoopReceive else SnoopEnds;
    } else if !s.helix.writer.Closed? && (s.helix.writer.Receiving? && s.helix.queue == [] ==> s.s2c.Done?) {
      var step := WriterCanMove(s.helix, HelixSenders(s));
      l := HelixWriter(step);
    } else if !s.s2c.Done? {
      l := ServerPumpCanMove(s);
    } else {
      l := match s.control case Joining => ServerJoined case DrainingLean => LeanJoined case _ => HelixJoined;
    }
  }

  /** Where the paths part: when the client closed first, draining starts only once the server
      pump has ended, so that what Lean left unread can still be forwarded; otherwise it
      starts with the reaping. Either way the client pump and the snoop are gone by then. */
  lemma DrainFollowsJoin(triggers: seq<string>, history: seq<Label>, s: State, l: Label)
    requires Run(Init(triggers), history, s) && Enabled(s, l) && !Draining(s)
    ensures
      var t := Next(s, l);
      && (Draining(t) <==> (l.Reap? && s.control != Reaping(ClientFirst)) || l.ServerJoined?)
      && (l.ServerJoined? ==> s.control.Joining? && s.s2c.Done?)
      && (l.Reap? && s.control == Reaping(ClientFirst) ==> t.control.Joining? && t.s2c == s.s2c)
      && (Draining(t) ==> t.c2s.Done? && !t.snoop.alive)
  {
    hide Run;
    EveryRunIsSound(triggers, history, s);
    hide SaidBeforeExit, MaySay, HearServer, InjectBoth, ObserveCopy, PipesHold;
  }

  /** Every shutdown, however its tasks interleave, takes at most as many steps as there was
      work when the child was reaped, and nothing is left to step exactly when the proxy
      has exited. */
  lemma EveryShutdownExits(triggers: seq<string>, history: seq<Label>, s: State, labels: seq<Label>, t: State)
    requires Run(Init(triggers), history, s) && Reaped(s) && Run(s, labels, t)
    ensures Reaped(t) && |labels| + Work(t) <= Work(s)
    ensures (forall l :: !Enabled(t, l)) <==> t.control.Exited?
  {
    hide Run, PipesHold, ControlHolds, Work;
    EveryRunIsSound(triggers, history, s);
    RunKeepsSound(s, labels, t);
    ShutdownIsBounded(s, labels, t);
    if !t.control.Exited? {
      var l := ShutdownNeverSticks(t);
    }
  }

  // ---- From the first end to the exit --------------------------------------------------------

  /** Lean has not said more than it was asked. */
  ghost predicate WithinAsked(s: State) { SaidBeforeExit(s.heard, s.lean.taken, []) }

  lemma HearKeepsWithinAsked(s: State, p: Packet)
    requires WithinAsked(s) && Enabled(s, ServerFrame(p))
    ensures WithinAsked(Next(s, ServerFrame(p)))
  {
    HearShape(s, p);
    var t := Next(s, ServerFrame(p));
    var h := Heard(p, Consumes(s, p));
    assert MaySay(s.heard, s.lean.taken, p);
    hide Next, Enabled, Consumes, Envelope.AnsweredId;
    forall x
      ensures Answers(t.heard, true, x) + Answers(t.heard, false, x) + Answering([], x)
        <= Asks(t.lean.taken, true, x) + Asks(t.lean.taken, false, x)
    {
      assert Answers(s.heard, true, x) + Answers(s.heard, false, x) + Answering([], x)
        <= Asks(s.lean.taken, true, x) + Asks(s.lean.taken, false, x);
      AnswersSnoc(s.heard, h, true, x);
      AnswersSnoc(s.heard, h, false, x);
    }
  }

  lemma TakeKeepsWithinAsked(s: State, step: WriterStep)
    requires WithinAsked(s) && Enabled(s, LeanWriter(step))
    ensures WithinAsked(Next(s, LeanWriter(step)))
  {
    var t := Next(s, LeanWriter(step));
    if step.Take? {
      forall x ensures Answers(t.heard, true, x) + Answers(t.heard, false, x) + Answering([], x)
        <= Asks(t.lean.taken, true, x) + Asks(t.lean.taken, false, x) {
        AsksSnoc(s.lean.taken, s.lean.queue[0], true, x);
        AsksSnoc(s.lean.taken, s.lean.queue[0], false, x);
      }
    }
  }

  /** Only the writer to Lean takes frames, and only the server pump hears any. */
  lemma TakenUntouched(s: State, l: Label)
    requires Enabled(s, l) && !l.ServerFrame? && !l.LeanWriter?
    ensures Next(s, l).heard == s.heard && Next(s, l).lean.taken == s.lean.taken
  {
    hide ObserveCopy, MaySay, SaidBeforeExit;
  }

  lemma StepKeepsWithinAsked(s: State, l: Label)
    requires WithinAsked(s) && Enabled(s, l)
    ensures WithinAsked(Next(s, l))
  {
    match l
    case ServerFrame(p) => HearKeepsWithinAsked(s, p);
    case LeanWriter(step) => TakeKeepsWithinAsked(s, step);
    case _ =>
      TakenUntouched(s, l);
      hide Next, Enabled, SaidBeforeExit;
  }

  lemma {:induction false} RunKeepsWithinAsked(s: State, labels: seq<Label>, t: State)
    requires WithinAsked(s) && Run(s, labels, t)
    ensures WithinAsked(t)
    decreases |labels|
  {
    if labels != [] {
      StepKeepsWithinAsked(s, labels[0]);
      hide Next, Enabled, WithinAsked;
      RunKeepsWithinAsked(Next(s, labels[0]), labels[1..], t);
    }
  }

  /** In every run, a child being waited for may turn out to be gone, with nothing more to
      say: what is assumed of Lean never stands in the way of its end. */
  lemma ChildMayBeGone(triggers: seq<string>, labels: seq<Label>, t: State)
    requires Run(Init(triggers), labels, t) && t.control.Reaping?
    ensures Enabled(t, Reap([])) && Reaped(Next(t, Reap([])))
  {
    hide Run;
    RunKeepsWithinAsked(Init(triggers), labels, t);
  }

  /** When a pump has ended, the control path can go on to wait for the child, and when that
      is gone, on to the reaping. */
  lemma ClosingIsNoticed(triggers: seq<string>, labels: seq<Label>, s: State) returns (l: Label)
    requires Run(Init(triggers), labels, s)
    requires s.control.Serving? && (s.c2s.Done? || s.s2c.Done?)
    ensures l != Signal && Enabled(s, l) && Next(s, l).control.Reaping?
    ensures Enabled(Next(s, l), Reap([])) && Reaped(Next(Next(s, l), Reap([])))
  {
    hide Run;
    l := if s.c2s.Done? then ClientCloses else ServerCloses;
    RunSnoc(Init(triggers), labels, s, l);
    ChildMayBeGone(triggers, labels + [l], Next(s, l));
  }

  /** Some way on from here, without a further signal, to where the proxy has exited. */
  lemma {:induction false} DrainReachesExit(triggers: seq<string>, history: seq<Label>, s: State)
    returns (labels: seq<Label>, t: State)
    requires Run(Init(triggers), history, s) && Reaped(s)
    ensures Run(s, labels, t) && t.control.Exited? && Signal !in labels
    decreases Work(s)
  {
    hide PipesHold, ControlHolds, Work;
    EveryRunIsSound(triggers, history, s);
    if s.control.Exited? {
      labels, t := [], s;
    } else {
      var l := ShutdownNeverSticks(s);
      StepIsWork(s, l);
      RunSnoc(Init(triggers), history, s, l);
      NoSignalOnceReaped(s, l);
      hide Next, Enabled;
      var u := Next(s, l);
      var rest, end := DrainReachesExit(triggers, history + [l], u);
      labels, t := [l] + rest, end;
      assert labels[1..] == rest;
    }
  }

  lemma NoSignalOnceReaped(s: State, l: Label)
    requires ControlHolds(s) && Reaped(s) && Enabled(s, l)
    ensures l != Signal
  {
  }

  lemma ReapAndDrain(triggers: seq<string>, history: seq<Label>, s: State) returns (labels: seq<Label>, t: State)
    requires Run(Init(triggers), history, s) && s.control.Reaping?
    ensures Run(s, labels, t) && t.control.Exited? && Signal !in labels
  {
    ChildMayBeGone(triggers, history, s);
    RunSnoc(Init(triggers), history, s, Reap([]));
    var rest, end := DrainReachesExit(triggers, history + [Reap([])], Next(s, Reap([])));
    labels, t := [Reap([])] + rest, end;
    assert labels[1..] == rest;
    hide Next, Enabled;
  }

  /** From the first pump's end to the exit: in every run, once a pump has ended, the child is
      being waited for, or it is gone, the tasks can go on, without a signal, to where the
      proxy has exited. */
  lemma ExitIsReachable(triggers: seq<string>, history: seq<Label>, s: State) returns (labels: seq<Label>, t: State)
    requires Run(Init(triggers), history, s)
    requires s.c2s.Done? || s.s2c.Done? || !s.control.Serving?
    ensures Run(s, labels, t) && t.control.Exited? && Signal !in labels
  {
    EveryRunIsSound(triggers, history, s);
    assert ControlHolds(s);
    if s.control.Serving? {
      var l := ClosingIsNoticed(triggers, history, s);
      RunSnoc(Init(triggers), history, s, l);
      var rest, end := ReapAndDrain(triggers, history + [l], Next(s, l));
      labels, t := [l] + rest, end;
      assert labels[1..] == rest;
    } else if s.control.Reaping? {
      labels, t := ReapAndDrain(triggers, history, s);
    } else {
      labels, t := DrainReachesExit(triggers, history, s);
    }
  }

  // ---- The end --------------------------------------------------------------------------

  /** At every moment of every run: a writer that half-closed its sink without a failed
      write has written, whole and in order, every frame ever accepted into its queue. */
  lemma HalfCloseIsComplete(triggers: seq<string>, labels: seq<Label>, t: State)
    requires Run(Init(triggers), labels, t)
    ensures t.lean.writer in {Closing(true), Closed(true)} ==>
      t.lean.Written() == t.lean.sent && t.c2s.Done? && !t.snoop.alive
    ensures t.helix.writer in {Closing(true), Closed(true)} ==>
      t.helix.Written() == t.helix.sent && t.s2c.Done?
  {
    hide Run;
    EveryRunIsSound(triggers, labels, t);
  }

  /** When the proxy exits, both sinks are closed, no task can send to Lean any more, and,
      writes permitting, none to the client; nothing that was accepted is missing. */
  lemma ExitIsDrained(triggers: seq<string>, labels: seq<Label>, t: State)
    requires Run(Init(triggers), labels, t) && t.control.Exited?
    ensures t.c2s.Done? && !t.snoop.alive
    ensures t.lean.writer == Closed(true) ==> t.lean.Written() == t.lean.sent
    ensures t.helix.writer == Closed(true) ==> t.helix.Written() == t.helix.sent && t.s2c.Done?
    ensures t.lean.writer in {Closed(true), Closed(false)} && t.helix.writer in {Closed(true), Closed(false)}
    ensures forall l :: !Enabled(t, l)
  {
    hide Run;
    EveryRunIsSound(triggers, labels, t);
    HalfCloseIsComplete(triggers, labels, t);
  }
}
