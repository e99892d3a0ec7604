/** The tasks of the forwarder on the objects they share. Each method is what one task does
    between two waits, and takes the system exactly one step of `Forward`. */
module ForwardTasks {
  import opened Prelude
  import opened Json
  import opened StateStore
  import opened Query
  import opened Channel
  import opened Snoop
  import Debounce
  import opened Forward
  import Envelope
  import NoLeak
  import Pipes
  import Tee

  /** The step for a frame from Lean, case by case. */
  lemma ServerFrameExactly(s: State, p: Packet)
    requires Enabled(s, ServerFrame(p))
    ensures s.rest.Some? ==> |s.rest.value| > 0
    ensures
      var t := s.(heard := s.heard + [Heard(p, Consumes(s, p))],
                  rest := if s.rest.Some? then Some(s.rest.value[1..]) else None);
      Next(s, ServerFrame(p)) ==
        if Consumes(s, p) then
          var x := Envelope.AnsweredId(p.value).value;
          var pending := s.reg.table[x];
          var u := t.(reg := WithoutEntry(s.reg, x));
          if pending.generation == s.reg.generation then
            u.(log := s.log + [AnswerUpdate(pending, p.value.value)],
               applied := s.applied + [Applied(pending, p.value.value)])
          else u
        else t.(s2c := Sending(p))
  {
    hide MaySay, AnswerUpdate, Envelope.AnsweredId;
    assert Consumes(Unread(s), p) == Consumes(s, p);
  }

  /** The step by which a path of the shutdown begins. */
  function FirstStep(path: Path): Label {
    match path
    case ClientFirst => ClientCloses
    case ServerFirst => ServerCloses
    case Signalled => Signal
  }

  class Forwarder {
    const toLean: SinkQueue<Item>
    const toHelix: SinkQueue<Packet>
    const outstanding: Outstanding
    const state: StateHandle
    const snoop: Snoop
    const timer: Debounce.Debouncer<Aim>
    const querier: Querier
    var c2s: Pump
    var s2c: Pump
    var inbox: seq<Copy>
    var snoopAlive: bool
    var control: Control
    /** Whether Lean ever produced output. */
    var spoke: bool
    /** Which of the frames queued to Lean the snoop has seen. */
    var observed: seq<nat>
    ghost var clientRead: seq<Packet>
    ghost var heard: seq<Heard>
    ghost var applied: seq<Applied>
    ghost var rest: Option<seq<Packet>>

    /** The tasks share these objects, each in a consistent state. */
    ghost predicate Wired()
      reads this, toLean, toHelix, outstanding, state, snoop, timer
    {
      && state.Valid() && timer.Valid()
      && querier.toLean == toLean && querier.outstanding == outstanding
      && toLean.Valid() && toHelix.Valid()
      && (spoke <==> heard != [])
    }

    /** What the tasks did so far was a run of the system, up to its present state. */
    ghost predicate Valid()
      reads this, toLean, toHelix, outstanding, state, snoop, timer
    {
      Wired() && Reachable(snoop.triggers, View())
    }

    ghost function View(): State
      reads this, toLean, toHelix, outstanding, state, snoop, timer
    {
      State(snoop.triggers, clientRead, c2s, toLean.View(),
            SnoopTask(snoopAlive, inbox, observed, snoop.View(), timer.pending),
            outstanding.View(), heard, s2c, toHelix.View(), state.log, applied, control, rest)
    }

    /** Wire up the tasks; the querier shares the client's queue to Lean. */
    constructor (triggers: seq<string>, serialize: Json -> bytes, start: nat, debounce: nat)
      ensures Valid() && View() == Init(triggers)
      ensures fresh(toLean) && fresh(toHelix) && fresh(outstanding) && fresh(state) && fresh(snoop) && fresh(timer)
    {
      hide Reachable, Fold, Debounce.Reaches;
      var lean := new SinkQueue<Item>();
      var helix := new SinkQueue<Packet>();
      var registry := new Outstanding();
      toLean, toHelix, outstanding := lean, helix, registry;
      querier := new Querier(lean, registry, serialize);
      state := new StateHandle();
      snoop := new Snoop(triggers);
      timer := new Debounce.Debouncer<Aim>(start, debounce);
      c2s, s2c, inbox, snoopAlive, control, spoke := Reading, Reading, [], true, Serving, false;
      observed := [];
      clientRead, heard, applied, rest := [], [], [], None;
      new;
      InitReachable(triggers);
      assert View() == Init(triggers);
    }

    // ---- Client to server ---------------------------------------------------------------

    method ClientRead(p: Packet)
      requires Valid() && Enabled(View(), ClientFrame(p))
      modifies this
      ensures Valid() && View() == Next(old(View()), ClientFrame(p))
    {
      hide Reachable;
      ReachableNext(View(), ClientFrame(p));
      clientRead := clientRead + [p];
      c2s := Sending(p);
    }

    /** The pump's send: the frame goes out, or the sink is closed and the pump ends, or
        it goes on waiting. The copy is offered only after the frame was queued. */
    method ClientSend() returns (moved: bool)
      requires Valid() && c2s.Sending? && !control.Exited?
      modifies this, toLean
      ensures Valid()
      ensures old(Enabled(View(), ClientForward)) ==> moved && View() == Next(old(View()), ClientForward)
      ensures old(Enabled(View(), ClientSendFails)) ==> moved && View() == Next(old(View()), ClientSendFails)
      ensures !old(Enabled(View(), ClientForward)) && !old(Enabled(View(), ClientSendFails)) ==>
        !moved && View() == old(View())
    {
      hide Fold, Reachable;
      ghost var before := View();
      var p := c2s.packet;
      if toLean.writer.Closed? {
        ReachableNext(before, ClientSendFails);
        c2s := Done;
        return true;
      }
      var at := toLean.accepted;
      var sent := toLean.TrySend(Item(p, FromClient), false);
      if !sent {
        return false;
      }
      if snoopAlive && |inbox| < SNOOP_CAPACITY {
        inbox := inbox + [Copy(p.value, at)];
      }
      ReachableNext(before, ClientForward);
      c2s := Reading;
      return true;
    }

    /** The client closed its end, or what it sent could not be read. */
    method ClientStop()
      requires Valid() && Enabled(View(), ClientEnds)
      modifies this
      ensures Valid() && View() == Next(old(View()), ClientEnds)
    {
      hide Reachable;
      ReachableNext(View(), ClientEnds);
      c2s := Done;
    }

    // ---- Server to client ---------------------------------------------------------------

    /** The consume branch: if the frame answers a registered id, take that id off the
        registry and fold the answer in unless a newer generation was opened. */
    method Consume(p: Packet) returns (consumed: bool)
      requires Wired()
      modifies outstanding, state, this`applied
      ensures Wired()
      ensures consumed == old(Consumes(View(), p))
      ensures !consumed ==> View() == old(View())
      ensures consumed ==>
        var before := old(View());
        var x := Envelope.AnsweredId(p.value).value;
        var pending := before.reg.table[x];
        var taken := before.(reg := WithoutEntry(before.reg, x));
        View() ==
          if pending.generation == before.reg.generation then
            taken.(log := before.log + [AnswerUpdate(pending, p.value.value)],
                   applied := before.applied + [Applied(pending, p.value.value)])
          else taken
    {
      hide AnswerUpdate, Envelope.AnsweredId, Fold, Debounce.Reaches;
      var id := Envelope.AnsweredId(p.value);
      if id.None? {
        return false;
      }
      var pending := outstanding.Take(id.value);
      if pending.None? {
        assert outstanding.table == old(outstanding.table);
        return false;
      }
      if pending.value.generation == outstanding.generation {
        HandleInjectedResponse(state, pending.value, p.value);
        applied := applied + [Applied(pending.value, p.value.value)];
      }
      return true;
    }

    /** Note that a frame was read; unless it was consumed, it is to be sent on. */
    method Note(p: Packet, consumed: bool)
      requires Wired() && (rest.Some? ==> |rest.value| > 0)
      modifies this`spoke, this`rest, this`heard, this`s2c
      ensures Wired() && spoke
      ensures
        var before := old(View());
        View() == before.(heard := before.heard + [Heard(p, consumed)],
                          rest := if before.rest.Some? then Some(before.rest.value[1..]) else None,
                          s2c := if consumed then before.s2c else Sending(p))
    {
      hide Fold, Debounce.Reaches;
      spoke := true;
      rest := if rest.Some? then Some(rest.value[1..]) else None;
      heard := heard + [Heard(p, consumed)];
      if !consumed {
        s2c := Sending(p);
      }
    }

    /** A frame from Lean is consumed, or kept to be sent on. */
    method ServerRead(p: Packet)
      requires Valid() && Enabled(View(), ServerFrame(p))
      modifies this, outstanding, state
      ensures Valid() && View() == Next(old(View()), ServerFrame(p))
      ensures spoke
    {
      ServerFrameExactly(View(), p);
      assert rest == View().rest;
      hide Wired, View, Reachable, Next, Enabled, Consumes, AnswerUpdate, Envelope.AnsweredId;
      ReachableNext(View(), ServerFrame(p));
      var consumed := Consume(p);
      Note(p, consumed);
    }

    /** The pump's send; the copy of a diagnostics or progress notification is folded in
        once the frame itself is queued. */
    method ServerSend() returns (moved: bool)
      requires Valid() && s2c.Sending? && !control.Exited?
      modifies this, toHelix, state
      ensures Valid()
      ensures old(Enabled(View(), ServerForward)) ==> moved && View() == Next(old(View()), ServerForward)
      ensures old(Enabled(View(), ServerSendFails)) ==> moved && View() == Next(old(View()), ServerSendFails)
      ensures !old(Enabled(View(), ServerForward)) && !old(Enabled(View(), ServerSendFails)) ==>
        !moved && View() == old(View())
    {
      hide Fold, Tee.TeeUpdate, Debounce.Reaches, Reachable;
      ghost var before := View();
      var p := s2c.packet;
      if toHelix.writer.Closed? {
        ReachableNext(before, ServerSendFails);
        s2c := Done;
        return true;
      }
      var sent := toHelix.TrySend(p, false);
      if !sent {
        return false;
      }
      ReachableNext(before, ServerForward);
      s2c := Reading;
      Tee.Apply(state, p.value);
      return true;
    }

    method ServerStop()
      requires Valid() && Enabled(View(), ServerEnds)
      modifies this
      ensures Valid() && View() == Next(old(View()), ServerEnds)
    {
      hide Reachable;
      ReachableNext(View(), ServerEnds);
      s2c := Done;
    }

    // ---- The snoop task -------------------------------------------------------------------

    /** The receive branch: observe one copy; a focus replaces the pending one and restarts
        the quiet period. */
    method SnoopMessage(now: nat)
      requires Valid() && Enabled(View(), SnoopReceive) && timer.history.now <= now
      modifies this, snoop, timer
      ensures Valid() && View() == Next(old(View()), SnoopReceive)
    {
      hide After, FocusOf, DocEventOf, Target, Debounce.Reaches;
      hide Reachable;
      ReachableNext(View(), SnoopReceive);
      var copy := inbox[0];
      inbox := inbox[1..];
      observed := observed + [copy.at];
      var obs := snoop.Observe(copy.message);
      var aim := if obs.focus.Some? then Some(Aim(obs.focus.value, observed)) else None;
      timer.Process(aim, now);
    }

    /** The timer branch: once the quiet period is over, inject for the pending focus. */
    method SnoopTimer(now: nat, reserved: bool) returns (fired: bool)
      requires Valid() && snoopAlive && !control.Exited? && timer.history.now <= now
      requires reserved ==> c2s.Sending?
      modifies timer, toLean, outstanding
      ensures Valid()
      ensures fired == (old(timer.pending).Some? && old(timer.deadline) <= now)
      ensures !fired ==> View() == old(View())
      ensures fired ==>
        var focus := old(timer.pending).value.focus;
        View() == Next(old(View()), SnoopFire(old(querier.NextBodies(focus.doc, focus.position)), reserved))
    {
      hide Debounce.Reaches, Reachable;
      ghost var before := View();
      var aim := timer.Poll(now);
      fired := aim.Some?;
      if fired {
        var focus := aim.value.focus;
        label Fired:
        var _ := querier.Request(focus.doc, focus.position, aim.value.cause, reserved);
        ghost var bodies := old@Fired(querier.NextBodies(focus.doc, focus.position));
        assert querier.View() ==
          InjectBoth(Desk(before.lean, before.reg), focus.doc, focus.position, aim.value.cause, bodies, reserved);
        ReachableNext(before, SnoopFire(bodies, reserved));
      }
    }

    /** The copy channel is empty and its sender gone. */
    method SnoopStop()
      requires Valid() && Enabled(View(), SnoopEnds)
      modifies this
      ensures Valid() && View() == Next(old(View()), SnoopEnds)
    {
      hide Reachable;
      ReachableNext(View(), SnoopEnds);
      snoopAlive := false;
    }

    // ---- The writers -------------------------------------------------------------------------

    method LeanTurn(step: WriterStep)
      requires Valid() && Enabled(View(), LeanWriter(step))
      modifies toLean
      ensures Valid() && View() == Next(old(View()), LeanWriter(step))
    {
      hide Reachable;
      ReachableNext(View(), LeanWriter(step));
      toLean.WriterTurn(LeanSenders(View()), step);
    }

    method HelixTurn(step: WriterStep)
      requires Valid() && Enabled(View(), HelixWriter(step))
      modifies toHelix
      ensures Valid() && View() == Next(old(View()), HelixWriter(step))
    {
      hide Reachable;
      ReachableNext(View(), HelixWriter(step));
      toHelix.WriterTurn(HelixSenders(View()), step);
    }

    // ---- Shutdown ---------------------------------------------------------------------------

    /** The first pump to end, or a signal, decides the path. */
    method Close(path: Path)
      requires Valid() && Enabled(View(), FirstStep(path))
      modifies this
      ensures Valid() && View() == Next(old(View()), FirstStep(path))
    {
      hide Fold, MaySay;
      hide WriterCan, WriterNext, ForwardClient, ObserveCopy, Fire, HearServer, ForwardServer;
      hide Reachable;
      ReachableNext(View(), FirstStep(path));
      if path.Signalled? {
        c2s := Done;
      }
      control := Reaping(path);
    }

    /** The child is gone, with `left` still unread in its stdout. */
    method ChildGone(ghost left: seq<Packet>)
      requires Valid() && Enabled(View(), Reap(left))
      modifies this
      ensures Valid() && View() == Next(old(View()), Reap(left))
    {
      hide SaidBeforeExit, Debounce.Reaches, Fold, MaySay;
      hide WriterCan, WriterNext, ForwardClient, ObserveCopy, Fire, HearServer, ForwardServer;
      hide Reachable;
      ReachableNext(View(), Reap(left));
      rest := Some(left);
      if control.path.ClientFirst? {
        control := Joining;
      } else {
        c2s := Done;
        snoopAlive := false;
        control := DrainingLean;
      }
    }

    /** The joined task ended: go on with the drain. */
    method Joined(l: Label)
      requires Valid() && Enabled(View(), l) && l in {ServerJoined, LeanJoined, HelixJoined}
      modifies this
      ensures Valid() && View() == Next(old(View()), l)
    {
      hide Fold, MaySay;
      hide WriterCan, WriterNext, ForwardClient, ObserveCopy, Fire, HearServer, ForwardServer;
      hide Reachable;
      ReachableNext(View(), l);
      match l {
        case ServerJoined =>
          snoopAlive := false;
          control := DrainingLean;
        case LeanJoined => control := DrainingHelix;
        case HelixJoined => control := Exited;
      }
    }
  }

  /** Whatever was called on a forwarder and in what order, it is a pair of pipes towards its
      client and Lean, no answer leaks, and nothing but answers to its own queries is
      withheld: its state is that of some run, so what holds of all runs holds of it. */
  lemma ForwarderIsTransparent(f: Forwarder, x: string)
    requires f.Valid()
    ensures
      var s := f.View();
      && Pipes.ToLean(s).output <= Pipes.ToLean(s).input
      && Pipes.ToHelix(s).output <= Pipes.ToHelix(s).input
      && (s.reg.issued < U64_RANGE ==> Answering(s.helix.sent, x) <= Asks(s.lean.taken, false, x))
      && (forall i :: 0 <= i < |s.heard| && s.heard[i].consumed ==>
            var id := Envelope.AnsweredId(s.heard[i].packet.value);
            id.Some? && NoLeak.WasInjected(s.lean.sent, id.value))
      && (forall i :: 0 <= i < |s.heard| && !s.heard[i].consumed ==> NoLeak.PassedOnAt(s, i))
  {
    var triggers, s := f.snoop.triggers, f.View();
    var labels :| Run(Init(triggers), labels, s);
    RunsAreTransparent(triggers, labels, s, x);
  }

  lemma RunsAreTransparent(triggers: seq<string>, labels: seq<Label>, s: State, x: string)
    requires Run(Init(triggers), labels, s)
    ensures Pipes.ToLean(s).output <= Pipes.ToLean(s).input && Pipes.ToHelix(s).output <= Pipes.ToHelix(s).input
    ensures s.reg.issued < U64_RANGE ==> Answering(s.helix.sent, x) <= Asks(s.lean.taken, false, x)
    ensures forall i :: 0 <= i < |s.heard| && s.heard[i].consumed ==>
      var id := Envelope.AnsweredId(s.heard[i].packet.value);
      id.Some? && NoLeak.WasInjected(s.lean.sent, id.value)
    ensures forall i :: 0 <= i < |s.heard| && !s.heard[i].consumed ==> NoLeak.PassedOnAt(s, i)
  {
    hide Run, Envelope.AnsweredId, NoLeak.WasInjected, NoLeak.PassedOnAt;
    Pipes.EveryRunRefinesPipes(triggers, labels, s);
    NoLeak.NothingElseWithheld(triggers, labels, s);
    if s.reg.issued < U64_RANGE {
      NoLeak.NoAnswerLeaks(triggers, labels, s, x);
    }
  }
}
