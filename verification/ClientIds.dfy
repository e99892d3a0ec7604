/** A client that happens to use the id of an outstanding query: its own answer is the one
    withheld. */
module ClientIds {
  import opened Prelude
  import opened Json
  import opened Wire
  import opened Query
  import opened Channel
  import opened Snoop
  import opened Forward
  import Codec
  import Envelope
  import NoLeak
  import Numerals

  const ID := "lhv-q1g"

  /** The client asks under the first query's id, ends the handshake, and edits a document. */
  function Asking(): Option<Json> { Some(Obj(map["id" := Str(ID), "method" := Str("shutdown")])) }

  function Handshake(): Option<Json> { Some(Obj(map["method" := Str(INITIALIZED)])) }

  function Editing(): Option<Json> {
    var start := Obj(map["line" := Num(0), "character" := Num(0)]);
    Some(Obj(map[
      "method" := Str(DID_CHANGE),
      "params" := Obj(map[
        "textDocument" := Obj(map["uri" := Str("u"), "version" := Num(1)]),
        "contentChanges" := Arr([Obj(map["range" := Obj(map["start" := start])])])])]))
  }

  function Answering(): Option<Json> { Some(Obj(map["id" := Str(ID), "result" := Null])) }

  function PacketOf(value: Option<Json>): Packet { Packet(Codec.FromBody([]), value) }

  const FOCUS := Focus(DocRef("u", 1), Position(0, 0))

  lemma AskingAsks()
    ensures Envelope.AskedId(Asking()) == Some(ID)
    ensures forall s :: After(s, Asking()) == s && FocusOf([], s, Asking()) == None
  {
  }

  lemma AnsweringAnswers()
    ensures Envelope.AnsweredId(Answering()) == Some(ID)
  {
  }

  lemma HandshakeInitializes()
    ensures After(FRESH_SESSION, Handshake()) == Session(true, map[]) && FocusOf([], FRESH_SESSION, Handshake()) == None
  {
  }

  lemma EditingFocuses()
    ensures FocusOf([], Session(true, map[]), Editing()) == Some(FOCUS)
  {
    var message := Editing();
    var params := Field(message, "params");
    var change := Field(Some(AsArr(Field(params, "contentChanges")).value[0]), "range");
    assert ParsePosition(Field(change, "start")) == Some(Position(0, 0));
    assert Method(message) == Some(DID_CHANGE) && UriOf(message) == Some("u") && VersionOf(message) == Some(1);
    assert Target([], message) == Some(("u", Position(0, 0)));
  }

  lemma FirstId()
    ensures IdOf(Pending(PlainGoal, FOCUS.doc, FOCUS.position, 1)) == ID
  {
    assert Numerals.Digits(1, 10) == [1];
  }

  /** Serving, with nothing in the pumps' hands, nothing copied to the snoop unobserved, and
      nothing yet taken by Lean or heard from it. */
  predicate Calm(s: State) {
    && s.control.Serving? && s.c2s.Reading? && s.s2c.Reading? && s.rest.None? && s.triggers == []
    && s.snoop.alive && s.snoop.inbox == [] && s.snoop.pending.None?
    && s.lean.writer.Receiving? && s.lean.taken == [] && |s.lean.queue| < 5
    && s.heard == [] && s.reg == NO_REQUESTS
  }

  /** A client frame is read, queued to Lean, and observed by the snoop. */
  lemma Observed(labels: seq<Label>, s: State, value: Option<Json>) returns (more: seq<Label>, t: State)
    requires Run(Init([]), labels, s) && Calm(s)
    ensures Run(Init([]), more, t)
    ensures
      var focus := FocusOf([], s.snoop.session, value);
      && t.lean == s.lean.Push(Item(PacketOf(value), FromClient))
      && t.snoop.session == After(s.snoop.session, value)
      && t.snoop.pending.Some? == focus.Some?
      && (focus.Some? ==> t.snoop.pending.value.focus == focus.value)
      && Calm(t.(lean := s.lean, snoop := t.snoop.(pending := None)))
  {
    hide Run, After, FocusOf, MaySay;
    var p := PacketOf(value);
    var u := Next(s, ClientFrame(p));
    RunSnoc(Init([]), labels, s, ClientFrame(p));
    var v := Next(u, ClientForward);
    RunSnoc(Init([]), labels + [ClientFrame(p)], u, ClientForward);
    more := labels + [ClientFrame(p)] + [ClientForward] + [SnoopReceive];
    t := Next(v, SnoopReceive);
    RunSnoc(Init([]), labels + [ClientFrame(p)] + [ClientForward], v, SnoopReceive);
  }

  /** A client id can be misrouted: here Lean has been handed one request under the id, the
      client's own, and no query; its answer is withheld from the client all the same,
      because a query under that id is waiting in the queue. `NoLeak.WithheldIffOutstanding`
      says exactly when this happens. */
  lemma ClientAnswerWithheld() returns (labels: seq<Label>, t: State)
    ensures Run(Init([]), labels, t)
    ensures Asks(t.lean.taken, false, ID) == 1 && Asks(t.lean.taken, true, ID) == 0
    ensures Envelope.AnsweredId(Answering()) == Some(ID) && Enabled(t, ServerFrame(PacketOf(Answering())))
    ensures Next(t, ServerFrame(PacketOf(Answering()))).heard == [Heard(PacketOf(Answering()), true)]
  {
    AskingAsks();
    HandshakeInitializes();
    EditingFocuses();
    AnsweringAnswers();
    hide Asking, Handshake, Editing, Answering, After, FocusOf, Run, Envelope.AnsweredId, Envelope.AskedId;
    var s0 := Init([]);
    assert Run(s0, [], s0) by {
      RunNothing(s0);
    }
    var l1, s1 := Observed([], s0, Asking());
    var l2, s2 := Observed(l1, s1, Handshake());
    var l3, s3 := Observed(l2, s2, Editing());
    labels, t := Fired(l3, s3);
    AnswerIsConsumed(t);
  }

  lemma RunNothing(s: State)
    ensures Run(s, [], s)
  {
  }

  /** The pending focus fires, and Lean takes the client's request. */
  lemma Fired(labels: seq<Label>, s: State) returns (more: seq<Label>, t: State)
    requires Run(Init([]), labels, s)
    requires Calm(s.(lean := NewSink(), snoop := s.snoop.(pending := None)))
    requires s.snoop.pending.Some? && s.snoop.pending.value.focus == FOCUS
    requires s.lean.writer.Receiving? && s.lean.taken == [] && 0 < |s.lean.queue| < 5
    requires s.lean.queue[0] == Item(PacketOf(Asking()), FromClient)
    ensures Run(Init([]), more, t)
    ensures t.lean.taken == [Item(PacketOf(Asking()), FromClient)]
    ensures t.s2c.Reading? && t.rest.None? && t.control.Serving? && t.heard == [] && ID in t.reg.table
  {
    hide Run, Asking, QueryBody, MaySay;
    FirstId();
    var fire := SnoopFire(([], []), false);
    var u := Next(s, fire);
    RunSnoc(Init([]), labels, s, fire);
    SecondIdDiffers();
    assert ID in u.reg.table;
    hide IdOf;
    assert u.lean.queue[0] == s.lean.queue[0];
    var take := LeanWriter(Take);
    t := Next(u, take);
    RunSnoc(Init([]), labels + [fire], u, take);
    more := labels + [fire] + [take];
  }

  lemma SecondIdDiffers()
    ensures IdOf(Pending(PlainTermGoal, FOCUS.doc, FOCUS.position, 1)) != ID
  {
    FirstId();
    InjectedIdInjective(1, PlainGoal, 1, PlainTermGoal);
  }

  lemma AnswerIsConsumed(t: State)
    requires t.lean.taken == [Item(PacketOf(Asking()), FromClient)] && t.heard == [] && ID in t.reg.table
    requires t.s2c.Reading? && t.rest.None? && t.control.Serving?
    ensures Asks(t.lean.taken, false, ID) == 1 && Asks(t.lean.taken, true, ID) == 0
    ensures Enabled(t, ServerFrame(PacketOf(Answering())))
    ensures Next(t, ServerFrame(PacketOf(Answering()))).heard == [Heard(PacketOf(Answering()), true)]
  {
    AskingAsks();
    AnsweringAnswers();
    hide Asking, Answering, Envelope.AnsweredId, Envelope.AskedId;
    assert t.lean.taken[..0] == [];
    assert Answers([], true, ID) == 0 == Answers([], false, ID);
    var p := PacketOf(Answering());
    assert MaySay(t.heard, t.lean.taken, p);
    HearShape(t, p);
  }
}
