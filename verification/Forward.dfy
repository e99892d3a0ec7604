/** The forwarder as a system of tasks: two pumps, the snoop with its querier, two sink
    writers and the control path that shuts them down. The runtime is single-threaded,
    so what a task does between two waits is one step; any task that can step may step
    next. */
module Forward {
  import opened Prelude
  import opened Json
  import opened Query
  import opened Channel
  import opened Snoop
  import StateStore
  import Envelope
  import Tee

  /** Copied client bodies buffered for the snoop; beyond that a copy is dropped. */
  const SNOOP_CAPACITY := 256

  /** A pump waits for its input, waits for room to send a frame it has read, or ended. */
  datatype Pump = Reading | Sending(packet: Packet) | Done

  /** A client message on its way to the snoop, and its place in the queue to Lean. */
  datatype Copy = Copy(message: Option<Json>, at: nat)

  /** A focus waiting for its quiet period, and the client messages it was derived from. */
  datatype Aim = Aim(focus: Focus, cause: seq<nat>)

  datatype SnoopTask = SnoopTask(
    alive: bool,
    inbox: seq<Copy>,
    observed: seq<nat>,
    session: Session,
    pending: Option<Aim>)

  /** A frame read from Lean, and whether it was consumed instead of forwarded. */
  datatype Heard = Heard(packet: Packet, consumed: bool)

  /** An answer that was folded into the snapshot. */
  datatype Applied = Applied(pending: Pending, answer: Json)

  datatype Path = ClientFirst | ServerFirst | Signalled

  datatype Control = Serving | Reaping(path: Path) | Joining | DrainingLean | DrainingHelix | Exited

  /** `rest` is what Lean's stdout still holds once the child is gone. */
  datatype State = State(
    triggers: seq<string>,
    clientRead: seq<Packet>,
    c2s: Pump,
    lean: Sink<Item>,
    snoop: SnoopTask,
    reg: Registry,
    heard: seq<Heard>,
    s2c: Pump,
    helix: Sink<Packet>,
    log: seq<StateStore.Update>,
    applied: seq<Applied>,
    control: Control,
    rest: Option<seq<Packet>>)

  function Init(triggers: seq<string>): State {
    State(triggers, [], Reading, NewSink(), SnoopTask(true, [], [], FRESH_SESSION, None), NO_REQUESTS,
          [], Reading, NewSink(), [], [], Serving, None)
  }

  datatype Label =
    | ClientFrame(packet: Packet)
    | ClientForward
    | ClientSendFails
    | ClientEnds
    | SnoopReceive
    | SnoopFire(bodies: (bytes, bytes), reserved: bool)
    | SnoopEnds
    | LeanWriter(step: WriterStep)
    | ServerFrame(packet: Packet)
    | ServerForward
    | ServerSendFails
    | ServerEnds
    | HelixWriter(step: WriterStep)
    | ClientCloses
    | ServerCloses
    | Signal
    | Reap(rest: seq<Packet>)
    | ServerJoined
    | LeanJoined
    | HelixJoined

  // ---- Lean as an environment -------------------------------------------------------

  /** How many of the frames read answer the string id `x`, consumed or forwarded. */
  function Answers(heard: seq<Heard>, consumed: bool, x: string): nat {
    if heard == [] then 0
    else
      var h := heard[|heard| - 1];
      Answers(heard[..|heard| - 1], consumed, x)
      + if h.consumed == consumed && Envelope.AnsweredId(h.packet.value) == Some(x) then 1 else 0
  }

  /** How many of the frames answer the string id `x`. */
  function Answering(packets: seq<Packet>, x: string): nat {
    if packets == [] then 0
    else
      Answering(packets[..|packets| - 1], x)
      + if Envelope.AnsweredId(packets[|packets| - 1].value) == Some(x) then 1 else 0
  }

  /** How many of the frames ask under the string id `x`, injected or from the client. */
  function Asks(items: seq<Item>, injected: bool, x: string): nat {
    if items == [] then 0
    else
      var i := items[|items| - 1];
      Asks(items[..|items| - 1], injected, x)
      + if i.origin.Injected? == injected && Envelope.AskedId(i.packet.value) == Some(x) then 1 else 0
  }

  /** Lean answers each request it has received at most once: an answer to a string id
      comes only while fewer were given than requests under that id were handed over. */
  predicate MaySay(heard: seq<Heard>, taken: seq<Item>, p: Packet) {
    match Envelope.AnsweredId(p.value)
    case Some(x) =>
      Answers(heard, true, x) + Answers(heard, false, x) < Asks(taken, true, x) + Asks(taken, false, x)
    case None => true
  }

  /** The same holds of everything Lean said before it exited, read or not. */
  ghost predicate SaidBeforeExit(heard: seq<Heard>, taken: seq<Item>, rest: seq<Packet>) {
    forall x ::
      Answers(heard, true, x) + Answers(heard, false, x) + Answering(rest, x)
      <= Asks(taken, true, x) + Asks(taken, false, x)
  }

  // ---- Steps ------------------------------------------------------------------------

  predicate LeanSenders(s: State) { !s.c2s.Done? || s.snoop.alive }

  predicate HelixSenders(s: State) { !s.s2c.Done? }

  ghost predicate Enabled(s: State, l: Label) {
    && !s.control.Exited?
    && match l
       case ClientFrame(_) => s.c2s.Reading?
       case ClientForward => s.c2s.Sending? && s.lean.HasRoom()
       case ClientSendFails => s.c2s.Sending? && s.lean.writer.Closed?
       case ClientEnds => s.c2s.Reading?
       case SnoopReceive => s.snoop.alive && |s.snoop.inbox| > 0
       case SnoopFire(_, reserved) => s.snoop.alive && s.snoop.pending.Some? && (reserved ==> s.c2s.Sending?)
       case SnoopEnds => s.snoop.alive && |s.snoop.inbox| == 0 && s.c2s.Done?
       case LeanWriter(step) => WriterCan(s.lean, LeanSenders(s), step)
       case ServerFrame(p) =>
         && s.s2c.Reading?
         && MaySay(s.heard, s.lean.taken, p)
         && (s.rest.Some? ==> |s.rest.value| > 0 && s.rest.value[0] == p)
       case ServerForward => s.s2c.Sending? && s.helix.HasRoom()
       case ServerSendFails => s.s2c.Sending? && s.helix.writer.Closed?
       case ServerEnds => s.s2c.Reading?
       case HelixWriter(step) => WriterCan(s.helix, HelixSenders(s), step)
       case ClientCloses => s.control.Serving? && s.c2s.Done?
       case ServerCloses => s.control.Serving? && s.s2c.Done?
       case Signal => s.control.Serving?
       case Reap(rest) => s.control.Reaping? && SaidBeforeExit(s.heard, s.lean.taken, rest)
       case ServerJoined => s.control.Joining? && s.s2c.Done?
       case LeanJoined => s.control.DrainingLean? && s.lean.writer.Closed?
       case HelixJoined => s.control.DrainingHelix? && s.helix.writer.Closed?
  }

  /** The frame goes to Lean's queue; a copy goes to the snoop if it has room for it. */
  function ForwardClient(s: State): State
    requires s.c2s.Sending?
  {
    var p := s.c2s.packet;
    var copy := Copy(p.value, |s.lean.sent|);
    s.(c2s := Reading,
       lean := s.lean.Push(Item(p, FromClient)),
       snoop := if s.snoop.alive && |s.snoop.inbox| < SNOOP_CAPACITY
                then s.snoop.(inbox := s.snoop.inbox + [copy])
                else s.snoop)
  }

  function ObserveCopy(t: SnoopTask, triggers: seq<string>): SnoopTask
    requires |t.inbox| > 0
  {
    var copy := t.inbox[0];
    var observed := t.observed + [copy.at];
    var focus := FocusOf(triggers, t.session, copy.message);
    t.(inbox := t.inbox[1..],
       observed := observed,
       session := After(t.session, copy.message),
       pending := if focus.Some? then Some(Aim(focus.value, observed)) else t.pending)
  }

  /** The quiet period is over; a slot may be `reserved` for a client frame waiting to be
      sent: inject both queries for the pending focus. */
  function Fire(s: State, bodies: (bytes, bytes), reserved: bool): State
    requires s.snoop.pending.Some?
  {
    var aim := s.snoop.pending.value;
    var desk := InjectBoth(Desk(s.lean, s.reg), aim.focus.doc, aim.focus.position, aim.cause, bodies, reserved);
    s.(lean := desk.lean, reg := desk.reg, snoop := s.snoop.(pending := None))
  }

  /** The frame answers an id we injected and still wait for. */
  predicate Consumes(s: State, p: Packet) {
    var id := Envelope.AnsweredId(p.value);
    id.Some? && id.value in s.reg.table
  }

  /** A frame from Lean: an answer to a registered id is consumed, and folded in if its
      generation is the latest; anything else is to be forwarded. */
  function HearServer(s: State, p: Packet): State {
    if Consumes(s, p) then
      var id := Envelope.AnsweredId(p.value).value;
      var pending := s.reg.table[id];
      var t := s.(heard := s.heard + [Heard(p, true)], reg := WithoutEntry(s.reg, id));
      if pending.generation == s.reg.generation then
        t.(log := t.log + [AnswerUpdate(pending, p.value.value)],
           applied := t.applied + [Applied(pending, p.value.value)])
      else t
    else s.(heard := s.heard + [Heard(p, false)], s2c := Sending(p))
  }

  /** Reading a frame that was left in Lean's stdout uses it up. */
  function Unread(s: State): State {
    if s.rest.Some? && |s.rest.value| > 0 then s.(rest := Some(s.rest.value[1..])) else s
  }

  /** The frame goes to the editor's queue; then its copy is folded in. */
  function ForwardServer(s: State): State
    requires s.s2c.Sending?
  {
    var p := s.s2c.packet;
    s.(s2c := Reading, helix := s.helix.Push(p), log := s.log + Tee.ToList(Tee.TeeUpdate(p.value)))
  }

  /** The child is gone. If the client closed first, the server pump is joined next;
      otherwise the client pump is aborted. Draining starts by aborting the snoop. */
  function AfterReap(s: State, rest: seq<Packet>): State
    requires s.control.Reaping?
  {
    if s.control.path.ClientFirst? then s.(control := Joining, rest := Some(rest))
    else StartDraining(s.(c2s := Done, rest := Some(rest)))
  }

  function StartDraining(s: State): State {
    s.(snoop := s.snoop.(alive := false), control := DrainingLean)
  }

  function Next(s: State, l: Label): State
    requires Enabled(s, l)
  {
    match l
    case ClientFrame(p) => s.(clientRead := s.clientRead + [p], c2s := Sending(p))
    case ClientForward => ForwardClient(s)
    case ClientSendFails => s.(c2s := Done)
    case ClientEnds => s.(c2s := Done)
    case SnoopReceive => s.(snoop := ObserveCopy(s.snoop, s.triggers))
    case SnoopFire(bodies, reserved) => Fire(s, bodies, reserved)
    case SnoopEnds => s.(snoop := s.snoop.(alive := false))
    case LeanWriter(step) => s.(lean := WriterNext(s.lean, LeanSenders(s), step))
    case ServerFrame(p) => HearServer(Unread(s), p)
    case ServerForward => ForwardServer(s)
    case ServerSendFails => s.(s2c := Done)
    case ServerEnds => s.(s2c := Done)
    case HelixWriter(step) => s.(helix := WriterNext(s.helix, HelixSenders(s), step))
    case ClientCloses => s.(control := Reaping(ClientFirst))
    case ServerCloses => s.(control := Reaping(ServerFirst))
    case Signal => s.(c2s := Done, control := Reaping(Signalled))
    case Reap(rest) => AfterReap(s, rest)
    case ServerJoined => StartDraining(s)
    case LeanJoined => s.(control := DrainingHelix)
    case HelixJoined => s.(control := Exited)
  }

  /** What hearing a frame changes: the registry and the snapshot only when it is
      consumed, the server pump only when it is not. */
  lemma HearShape(s: State, p: Packet)
    requires Enabled(s, ServerFrame(p))
    ensures
      var t := Next(s, ServerFrame(p));
      && t.heard == s.heard + [Heard(p, Consumes(s, p))]
      && t.s2c == (if Consumes(s, p) then s.s2c else Sending(p))
      && t.reg == (if Consumes(s, p) then WithoutEntry(s.reg, Envelope.AnsweredId(p.value).value) else s.reg)
      && (!Consumes(s, p) ==> t.log == s.log && t.applied == s.applied)
      && t.rest == Unread(s).rest
      && t == s.(heard := t.heard, s2c := t.s2c, reg := t.reg, log := t.log, applied := t.applied, rest := t.rest)
  {
    hide AnswerUpdate, Envelope.AnsweredId, MaySay;
    assert Consumes(Unread(s), p) == Consumes(s, p);
  }

  /** The labels take the system from `s` to `t`. */
  ghost predicate Run(s: State, labels: seq<Label>, t: State)
    decreases |labels|
  {
    if labels == [] then s == t
    else Enabled(s, labels[0]) && Run(Next(s, labels[0]), labels[1..], t)
  }

  /** A run goes on with any step enabled at its end. */
  lemma {:induction false} RunSnoc(s: State, labels: seq<Label>, t: State, l: Label)
    requires Run(s, labels, t) && Enabled(t, l)
    ensures Run(s, labels + [l], Next(t, l))
    decreases |labels|
  {
    hide Next, Enabled;
    if labels == [] {
      assert [l][1..] == [];
    } else {
      assert (labels + [l])[1..] == labels[1..] + [l];
      RunSnoc(Next(s, labels[0]), labels[1..], t, l);
    }
  }

  /** Some run leads to the state. */
  ghost predicate Reachable(triggers: seq<string>, s: State) {
    exists labels :: Run(Init(triggers), labels, s)
  }

  lemma InitReachable(triggers: seq<string>)
    ensures Reachable(triggers, Init(triggers))
  {
    assert Run(Init(triggers), [], Init(triggers));
  }

  lemma ReachableNext(s: State, l: Label)
    requires Reachable(s.triggers, s) && Enabled(s, l)
    ensures Reachable(s.triggers, Next(s, l))
  {
    var labels :| Run(Init(s.triggers), labels, s);
    RunSnoc(Init(s.triggers), labels, s, l);
  }
}
