/** Seen without the injected frames and the consumed answers, the forwarder is a pair of
    plain first-in first-out pipes. */
module Pipes {
  import opened Prelude
  import opened Query
  import opened Channel
  import opened Forward
  import opened Wire
  import Codec
  import CodecProofs
  import Tee

  // ---- Erasure ----------------------------------------------------------------------

  /** The client's own frames among those queued to Lean. */
  function ClientOnly(items: seq<Item>): seq<Packet> {
    if items == [] then []
    else
      var rest := ClientOnly(items[..|items| - 1]);
      var last := items[|items| - 1];
      if last.origin.FromClient? then rest + [last.packet] else rest
  }

  /** The frames read from Lean that were not consumed. */
  function Unconsumed(heard: seq<Heard>): seq<Packet> {
    if heard == [] then []
    else
      var rest := Unconsumed(heard[..|heard| - 1]);
      var last := heard[|heard| - 1];
      if last.consumed then rest else rest + [last.packet]
  }

  lemma ClientOnlySnoc(items: seq<Item>, item: Item)
    ensures ClientOnly(items + [item]) == ClientOnly(items) + if item.origin.FromClient? then [item.packet] else []
  {
    assert (items + [item])[..|items|] == items;
  }

  lemma {:induction false} ClientOnlyAppend(a: seq<Item>, b: seq<Item>)
    ensures ClientOnly(a + b) == ClientOnly(a) + ClientOnly(b)
  {
    if b == [] {
      assert a + b == a;
    } else {
      var init, last := b[..|b| - 1], b[|b| - 1];
      assert a + b == (a + init) + [last] && b == init + [last];
      ClientOnlyAppend(a, init);
      ClientOnlySnoc(a + init, last);
      ClientOnlySnoc(init, last);
    }
  }

  lemma UnconsumedSnoc(heard: seq<Heard>, h: Heard)
    ensures Unconsumed(heard + [h]) == Unconsumed(heard) + if h.consumed then [] else [h.packet]
  {
    assert (heard + [h])[..|heard|] == heard;
  }

  // ---- Injection --------------------------------------------------------------------

  /** `after` is `before` with at most these items pushed, in this order. */
  ghost predicate Pushed(before: Sink<Item>, items: seq<Item>, after: Sink<Item>) {
    && after.sent == before.sent + items
    && after.queue == before.queue + items
    && after.(sent := before.sent, queue := before.queue) == before
    && (items != [] ==> before.HasRoom())
  }

  /** What one query adds to the queue: its item if there is room. */
  lemma InjectOnePushes(desk: Desk, kind: QueryKind, doc: DocRef, position: Position, cause: seq<nat>, body: bytes,
                        reserved: bool)
    returns (items: seq<Item>)
    requires desk.lean.Valid() && desk.lean.writer !in {Closing(true), Closed(true)}
    ensures Pushed(desk.lean, items, InjectOne(desk, kind, doc, position, cause, body, reserved).lean)
    ensures InjectOne(desk, kind, doc, position, cause, body, reserved).lean.Valid()
    ensures |items| <= 1
    ensures InjectOne(desk, kind, doc, position, cause, body, reserved).reg.generation == desk.reg.generation
    ensures forall i :: 0 <= i < |items| ==>
      && items[i].origin == Injected(Pending(kind, doc, position, desk.reg.generation), cause)
      && items[i].packet.value == Some(QueryBody(items[i].origin.pending))
    ensures ClientOnly(desk.lean.sent + items) == ClientOnly(desk.lean.sent)
  {
    hide QueryBody, IdOf;
    var item := QueryItem(Pending(kind, doc, position, desk.reg.generation), cause, body);
    items := if desk.lean.HasRoomBeside(reserved) then [item] else [];
    if desk.lean.HasRoomBeside(reserved) {
      PushKeepsValid(desk.lean, item);
      ClientOnlySnoc(desk.lean.sent, item);
    } else {
      assert desk.lean.sent + items == desk.lean.sent;
      assert desk.lean.queue + items == desk.lean.queue;
    }
  }

  /** What a request adds to the queue: one item, both, or none. */
  lemma InjectBothPushes(desk: Desk, doc: DocRef, position: Position, cause: seq<nat>, bodies: (bytes, bytes),
                         reserved: bool)
    returns (items: seq<Item>)
    requires desk.lean.Valid() && desk.lean.writer !in {Closing(true), Closed(true)}
    ensures Pushed(desk.lean, items, InjectBoth(desk, doc, position, cause, bodies, reserved).lean)
    ensures InjectBoth(desk, doc, position, cause, bodies, reserved).lean.Valid()
    ensures forall i :: 0 <= i < |items| ==>
      && items[i].origin.Injected?
      && items[i].origin.cause == cause
      && items[i].packet.value == Some(QueryBody(items[i].origin.pending))
      && items[i].origin.pending.(kind := PlainGoal)
         == Pending(PlainGoal, doc, position, Increment(desk.reg.generation))
    ensures forall i, j :: 0 <= i < j < |items| ==> items[i].origin.pending.kind != items[j].origin.pending.kind
    ensures ClientOnly(desk.lean.sent + items) == ClientOnly(desk.lean.sent)
  {
    hide InjectOne, ClientOnly, QueryBody;
    var ready := desk.(reg := OpenGeneration(desk.reg));
    var first := InjectOne(ready, PlainGoal, doc, position, cause, bodies.0, reserved);
    var a := InjectOnePushes(ready, PlainGoal, doc, position, cause, bodies.0, reserved);
    var b := InjectOnePushes(first, PlainTermGoal, doc, position, cause, bodies.1, reserved);
    items := a + b;
    assert desk.lean.sent + items == desk.lean.sent + a + b;
    assert desk.lean.queue + items == desk.lean.queue + a + b;
  }

  // ---- The invariant ----------------------------------------------------------------

  /** A clean end of a writer means that nothing can send to it any more. */
  ghost predicate SinksHold(s: State) {
    && s.lean.Valid() && s.helix.Valid()
    && (LeanSenders(s) ==> s.lean.writer !in {Closing(true), Closed(true)})
    && (HelixSenders(s) ==> s.helix.writer !in {Closing(true), Closed(true)})
  }

  /** `out` is what was passed on of `read`: all but the frame the pump holds, or, once
      the pump has ended, all but at most the one it held then. */
  predicate PassedOn(read: seq<Packet>, pump: Pump, out: seq<Packet>) {
    match pump
    case Reading => read == out
    case Sending(p) => read == out + [p]
    case Done => read == out || (|read| == |out| + 1 && read[..|out|] == out)
  }

  ghost predicate PipesHold(s: State) {
    && SinksHold(s)
    && PassedOn(s.clientRead, s.c2s, ClientOnly(s.lean.sent))
    && PassedOn(Unconsumed(s.heard), s.s2c, s.helix.sent)
  }

  lemma InitHolds(triggers: seq<string>)
    ensures PipesHold(Init(triggers))
  {
  }

  /** Forwarding a client frame, injecting queries, and observing a copy. */
  lemma ClientStepKeepsPipes(s: State, l: Label)
    requires PipesHold(s) && Enabled(s, l)
    requires l.ClientForward? || l.SnoopFire? || l.SnoopReceive?
    ensures PipesHold(Next(s, l))
  {
    match l
    case ClientForward =>
      ClientOnlySnoc(s.lean.sent, Item(s.c2s.packet, FromClient));
      PushKeepsValid(s.lean, Item(s.c2s.packet, FromClient));
    case SnoopFire(bodies, reserved) =>
      hide InjectBoth;
      var aim := s.snoop.pending.value;
      var desk := Desk(s.lean, s.reg);
      var items := InjectBothPushes(desk, aim.focus.doc, aim.focus.position, aim.cause, bodies, reserved);
    case SnoopReceive =>
  }

  lemma HearKeepsPipes(s: State, p: Packet)
    requires PipesHold(s) && Enabled(s, ServerFrame(p))
    ensures PipesHold(Next(s, ServerFrame(p)))
  {
    HearShape(s, p);
    assert s.s2c.Reading?;
    hide Next, Enabled, Consumes, Unread, ClientOnly, Unconsumed;
    UnconsumedSnoc(s.heard, Heard(p, true));
    UnconsumedSnoc(s.heard, Heard(p, false));
  }

  lemma ServerForwardKeepsPipes(s: State)
    requires PipesHold(s) && Enabled(s, ServerForward)
    ensures PipesHold(Next(s, ServerForward))
  {
    hide Tee.TeeUpdate, ClientOnly, Unconsumed;
    PushKeepsValid(s.helix, s.s2c.packet);
  }

  lemma WriterStepKeepsPipes(s: State, l: Label)
    requires PipesHold(s) && Enabled(s, l)
    requires l.LeanWriter? || l.HelixWriter?
    ensures PipesHold(Next(s, l))
  {
    WriterKeepsValidIf(s.lean, LeanSenders(s), l.step);
    WriterKeepsValidIf(s.helix, HelixSenders(s), l.step);
  }

  lemma WriterKeepsValidIf<T>(s: Sink<T>, senders: bool, step: WriterStep)
    requires s.Valid()
    ensures WriterCan(s, senders, step) ==> WriterNext(s, senders, step).Valid()
    ensures WriterCan(s, senders, step) ==> WriterNext(s, senders, step).sent == s.sent
  {
    if WriterCan(s, senders, step) {
      WriterKeepsValid(s, senders, step);
    }
  }

  lemma StepKeepsPipes(s: State, l: Label)
    requires PipesHold(s) && Enabled(s, l)
    ensures PipesHold(Next(s, l))
  {
    match l
    case ClientForward => ClientStepKeepsPipes(s, l);
    case SnoopFire(_, _) => ClientStepKeepsPipes(s, l);
    case SnoopReceive => ClientStepKeepsPipes(s, l);
    case ServerFrame(p) => HearKeepsPipes(s, p);
    case ServerForward => ServerForwardKeepsPipes(s);
    case LeanWriter(_) => WriterStepKeepsPipes(s, l);
    case HelixWriter(_) => WriterStepKeepsPipes(s, l);
    case _ =>
      hide ForwardClient, ForwardServer, Fire, HearServer, ObserveCopy, WriterCan, WriterNext;
      hide ClientOnly, Unconsumed;
  }

  lemma {:induction false} RunKeepsPipes(s: State, labels: seq<Label>, t: State)
    requires PipesHold(s) && Run(s, labels, t)
    ensures PipesHold(t)
    decreases |labels|
  {
    if labels != [] {
      StepKeepsPipes(s, labels[0]);
      RunKeepsPipes(Next(s, labels[0]), labels[1..], t);
    }
  }

  // ---- Refinement -------------------------------------------------------------------

  /** A plain pipe: what went in and what came out. */
  datatype Pipe = Pipe(input: seq<Packet>, output: seq<Packet>) {
    /** Nothing happens, one frame is accepted, or the oldest one inside is delivered. */
    ghost predicate StepsTo(next: Pipe) {
      || next == this
      || (exists p :: next == this.(input := input + [p]))
      || (|output| < |input| && next == this.(output := output + [input[|output|]]))
    }
  }

  /** From the client to Lean, without the injected frames. */
  function ToLean(s: State): Pipe { Pipe(s.clientRead, ClientOnly(s.lean.Written())) }

  /** From Lean to the client, without the consumed answers. */
  function ToHelix(s: State): Pipe { Pipe(Unconsumed(s.heard), s.helix.Written()) }

  /** What came out of a pipe is a prefix of what went in. */
  lemma OutputIsPrefix(s: State)
    requires PipesHold(s)
    ensures ToLean(s).output <= ToLean(s).input
    ensures ToHelix(s).output <= ToHelix(s).input
  {
    var w := s.lean.Written();
    WrittenIsPrefix(s.lean);
    WrittenIsPrefix(s.helix);
    assert s.lean.sent == w + s.lean.sent[|w|..];
    ClientOnlyAppend(w, s.lean.sent[|w|..]);
  }

  /** Completing a write adds the oldest frame not yet written; no other move of the
      writer changes what is written. */
  lemma WriterWrites<T>(s: Sink<T>, senders: bool, step: WriterStep)
    requires s.Valid() && WriterCan(s, senders, step)
    ensures !step.Wrote? ==> WriterNext(s, senders, step).Written() == s.Written()
    ensures step.Wrote? ==>
      && |s.Written()| < |s.sent|
      && WriterNext(s, senders, step).Written() == s.Written() + [s.sent[|s.Written()|]]
  {
    if step.Take? {
      assert (s.taken + [s.queue[0]])[..|s.taken|] == s.taken;
    }
  }

  lemma WriterStepRefines(s: State, l: Label)
    requires PipesHold(s) && Enabled(s, l)
    requires l.LeanWriter? || l.HelixWriter?
    ensures ToLean(s).StepsTo(ToLean(Next(s, l)))
    ensures ToHelix(s).StepsTo(ToHelix(Next(s, l)))
  {
    StepKeepsPipes(s, l);
    OutputIsPrefix(s);
    OutputIsPrefix(Next(s, l));
    match l
    case LeanWriter(step) =>
      WriterWrites(s.lean, LeanSenders(s), step);
      if step.Wrote? {
        var w := s.lean.Written();
        ClientOnlySnoc(w, s.lean.sent[|w|]);
      }
    case HelixWriter(step) =>
      WriterWrites(s.helix, HelixSenders(s), step);
  }

  /** What a request pushes is not written yet. */
  lemma FireRefines(s: State, bodies: (bytes, bytes), reserved: bool)
    requires PipesHold(s) && Enabled(s, SnoopFire(bodies, reserved))
    ensures ToLean(Next(s, SnoopFire(bodies, reserved))) == ToLean(s)
    ensures ToHelix(Next(s, SnoopFire(bodies, reserved))) == ToHelix(s)
  {
    hide InjectBoth;
    var aim := s.snoop.pending.value;
    var items := InjectBothPushes(Desk(s.lean, s.reg), aim.focus.doc, aim.focus.position, aim.cause, bodies, reserved);
  }

  lemma ServerFrameRefines(s: State, p: Packet)
    requires PipesHold(s) && Enabled(s, ServerFrame(p))
    ensures ToLean(Next(s, ServerFrame(p))) == ToLean(s)
    ensures ToHelix(s).StepsTo(ToHelix(Next(s, ServerFrame(p))))
  {
    HearShape(s, p);
    hide Next, Enabled, Consumes, Unread, ClientOnly, Unconsumed;
    UnconsumedSnoc(s.heard, Heard(p, true));
    UnconsumedSnoc(s.heard, Heard(p, false));
    assert ToHelix(s).StepsTo(ToHelix(s).(input := ToHelix(s).input + [p]));
  }

  /** Every step of the forwarder is a step, or no step, of each plain pipe. */
  lemma StepRefinesPipes(s: State, l: Label)
    requires PipesHold(s) && Enabled(s, l)
    ensures ToLean(s).StepsTo(ToLean(Next(s, l)))
    ensures ToHelix(s).StepsTo(ToHelix(Next(s, l)))
  {
    match l
    case LeanWriter(_) => WriterStepRefines(s, l);
    case HelixWriter(_) => WriterStepRefines(s, l);
    case SnoopFire(bodies, reserved) => FireRefines(s, bodies, reserved);
    case ServerFrame(p) => ServerFrameRefines(s, p);
    case ClientFrame(p) =>
      assert ToLean(s).StepsTo(ToLean(s).(input := ToLean(s).input + [p]));
    case _ =>
      EndsUntouched(s, l);
      hide Next, Enabled, PipesHold, ClientOnly, Unconsumed;
  }

  /** The other steps touch neither end of either pipe. */
  lemma EndsUntouched(s: State, l: Label)
    requires Enabled(s, l)
    requires !l.LeanWriter? && !l.HelixWriter? && !l.SnoopFire? && !l.ServerFrame? && !l.ClientFrame?
    ensures
      var t := Next(s, l);
      && t.clientRead == s.clientRead && t.heard == s.heard
      && t.lean.taken == s.lean.taken && t.lean.writer == s.lean.writer
      && t.helix.taken == s.helix.taken && t.helix.writer == s.helix.writer
  {
    hide ObserveCopy, Fire, HearServer, MaySay, Tee.TeeUpdate;
  }

  /** Over whole runs: whatever the interleaving, the frames Lean was sent are, injected
      ones aside, a prefix of the client's frames; the frames the client was sent are a
      prefix of Lean's, consumed ones aside; and the next step keeps to the pipes. */
  lemma EveryRunRefinesPipes(triggers: seq<string>, labels: seq<Label>, t: State)
    requires Run(Init(triggers), labels, t)
    ensures PipesHold(t)
    ensures ToLean(t).output <= ToLean(t).input && ToHelix(t).output <= ToHelix(t).input
    ensures forall l :: Enabled(t, l) ==>
      ToLean(t).StepsTo(ToLean(Next(t, l))) && ToHelix(t).StepsTo(ToHelix(Next(t, l)))
  {
    InitHolds(triggers);
    RunKeepsPipes(Init(triggers), labels, t);
    OutputIsPrefix(t);
    forall l | Enabled(t, l)
      ensures ToLean(t).StepsTo(ToLean(Next(t, l))) && ToHelix(t).StepsTo(ToHelix(Next(t, l)))
    {
      StepRefinesPipes(t, l);
    }
  }

  // ---- Bytes ------------------------------------------------------------------------

  function Frames(packets: seq<Packet>): (frames: seq<Codec.Frame>)
    ensures |frames| == |packets|
    ensures forall i :: 0 <= i < |frames| ==> frames[i] == packets[i].frame
  {
    seq(|packets|, i requires 0 <= i < |packets| => packets[i].frame)
  }

  lemma FramesOfPrefix(a: seq<Packet>, b: seq<Codec.Frame>)
    requires Frames(a) <= b
    ensures Codec.Wire(Frames(a)) <= Codec.Wire(b)
  {
    assert Codec.Raws(Frames(a)) <= Codec.Raws(b);
    FlattenPrefix(Codec.Raws(Frames(a)), Codec.Raws(b));
  }

  /** Byte transparency towards Lean: if the frames the pump read were cut out of the
      byte stream `stdin`, the bytes of the client frames written are a prefix of it. */
  lemma ClientBytesAreVerbatim(triggers: seq<string>, labels: seq<Label>, t: State, stdin: bytes)
    requires Run(Init(triggers), labels, t)
    requires Frames(t.clientRead) <= Codec.ReadAll(stdin).0
    ensures Codec.Wire(Frames(ToLean(t).output)) <= stdin
  {
    EveryRunRefinesPipes(triggers, labels, t);
    assert Frames(ToLean(t).output) <= Frames(t.clientRead);
    FramesOfPrefix(ToLean(t).output, Codec.ReadAll(stdin).0);
    CodecProofs.SegmentationIsVerbatim(stdin);
  }

  function HeardPackets(heard: seq<Heard>): (packets: seq<Packet>)
    ensures |packets| == |heard|
    ensures forall i :: 0 <= i < |packets| ==> packets[i] == heard[i].packet
  {
    seq(|heard|, i requires 0 <= i < |heard| => heard[i].packet)
  }

  /** A prefix of what was not consumed is what was not consumed of a prefix. */
  lemma {:induction false} UnconsumedPrefix(heard: seq<Heard>, out: seq<Packet>) returns (k: nat)
    requires out <= Unconsumed(heard)
    ensures k <= |heard| && out == Unconsumed(heard[..k])
  {
    if out == Unconsumed(heard) {
      k := |heard|;
      assert heard[..k] == heard;
    } else {
      var init := heard[..|heard| - 1];
      k := UnconsumedPrefix(init, out);
      assert init[..k] == heard[..k];
    }
  }

  /** Byte transparency towards the client: if the frames read from Lean were cut out of
      its output `stdout`, then there is a point in them up to which their bytes are a
      prefix of `stdout`, and the client was sent exactly those that were not consumed. */
  lemma ServerBytesAreVerbatim(triggers: seq<string>, labels: seq<Label>, t: State, stdout: bytes) returns (k: nat)
    requires Run(Init(triggers), labels, t)
    requires Frames(HeardPackets(t.heard)) <= Codec.ReadAll(stdout).0
    ensures k <= |t.heard| && t.helix.Written() == Unconsumed(t.heard[..k])
    ensures Codec.Wire(Frames(HeardPackets(t.heard[..k]))) <= stdout
  {
    EveryRunRefinesPipes(triggers, labels, t);
    k := UnconsumedPrefix(t.heard, t.helix.Written());
    var read := HeardPackets(t.heard[..k]);
    assert Frames(read) <= Frames(HeardPackets(t.heard));
    FramesOfPrefix(read, Codec.ReadAll(stdout).0);
    CodecProofs.SegmentationIsVerbatim(stdout);
  }

  // ---- No stall ---------------------------------------------------------------------

  /** While Lean's writer lives, a client frame waiting to be sent gets into the queue
      with steps of that writer and of the pump alone: the snoop, the querier and the
      other direction need not move. */
  lemma ClientNeverWaitsForSnoop(s: State) returns (labels: seq<Label>, t: State)
    requires PipesHold(s) && s.c2s.Sending? && !s.control.Exited?
    requires s.lean.writer.Receiving? || s.lean.writer.Writing?
    ensures Run(s, labels, t) && |labels| <= 3
    ensures forall i :: 0 <= i < |labels| ==> labels[i].LeanWriter? || labels[i].ClientForward?
    ensures t.c2s.Reading? && t.lean.sent == s.lean.sent + [Item(s.c2s.packet, FromClient)]
  {
    labels := [ClientForward];
    if s.lean.HasRoom() {
      t := Next(s, ClientForward);
      assert Run(s, labels, t);
    } else {
      hide ObserveCopy, HearServer, Fire, ForwardServer, MaySay;
      var take := LeanWriter(Take);
      var u := if s.lean.writer.Writing? then Next(s, LeanWriter(Wrote)) else s;
      assert Enabled(u, take);
      var v := Next(u, take);
      t := Next(v, ClientForward);
      assert Run(v, labels, t);
      assert [take, ClientForward][1..] == labels;
      assert Run(u, [take, ClientForward], t);
      labels := [take, ClientForward];
      if s.lean.writer.Writing? {
        assert [LeanWriter(Wrote), take, ClientForward][1..] == labels;
        labels := [LeanWriter(Wrote), take, ClientForward];
      }
    }
  }
}
