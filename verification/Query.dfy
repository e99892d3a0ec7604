/** The goal querier: injects two goal queries per focus into the stream to Lean and
    remembers their ids until the answers come back. */
module Query {
  import opened Prelude
  import opened Wire
  import opened Json
  import opened StateStore
  import opened Channel
  import Codec
  import Envelope
  import Numerals

  /** A frame together with what its body decodes to. */
  datatype Packet = Packet(frame: Codec.Frame, value: Option<Json>)

  datatype QueryKind = PlainGoal | PlainTermGoal {
    function Method(): string {
      match this
      case PlainGoal => "$/lean/plainGoal"
      case PlainTermGoal => "$/lean/plainTermGoal"
    }

    function Tag(): string {
      match this
      case PlainGoal => "g"
      case PlainTermGoal => "t"
    }
  }

  /** What an outstanding id is waiting for. */
  datatype Pending = Pending(kind: QueryKind, doc: DocRef, position: Position, generation: u64)

  const INJECT_PREFIX := "lhv-q"

  function InjectedId(generation: u64, kind: QueryKind): string {
    INJECT_PREFIX + Numerals.Decimal(generation) + kind.Tag()
  }

  function IdOf(pending: Pending): string { InjectedId(pending.generation, pending.kind) }

  lemma InjectedIdInjective(g: u64, j: QueryKind, h: u64, k: QueryKind)
    ensures InjectedId(g, j) == InjectedId(h, k) <==> g == h && j == k
  {
    var a, b := InjectedId(g, j), InjectedId(h, k);
    if a == b {
      assert a[|a| - 1..] == j.Tag() && b[|b| - 1..] == k.Tag();
      assert a[5..|a| - 1] == Numerals.Decimal(g) && b[5..|b| - 1] == Numerals.Decimal(h);
      Numerals.DecimalInjective(g, h);
    }
  }

  /** The ids of the `m`-th and `n`-th request coincide exactly when the 64-bit
      generation counter has wrapped between them and the kinds agree. */
  lemma InjectedIdsCollideOnWrap(m: nat, j: QueryKind, n: nat, k: QueryKind)
    ensures InjectedId(Wrapped(m), j) == InjectedId(Wrapped(n), k) <==>
      m % U64_RANGE == n % U64_RANGE && j == k
  {
    InjectedIdInjective(Wrapped(m), j, Wrapped(n), k);
  }

  /** The body of a goal query. */
  function QueryBody(pending: Pending): Json {
    Obj(map[
      "jsonrpc" := Str("2.0"),
      "id" := Str(IdOf(pending)),
      "method" := Str(pending.kind.Method()),
      "params" := Obj(map[
        "textDocument" := Obj(map["uri" := Str(pending.doc.uri)]),
        "position" := Obj(map[
          "line" := Num(pending.position.line),
          "character" := Num(pending.position.character)])])])
  }

  /** The whole body of a goal query, letter by letter. */
  lemma QueryBodyExactly(pending: Pending)
    ensures
      var body := Some(QueryBody(pending));
      var params := Field(body, "params");
      var tag := if pending.kind == PlainGoal then "g" else "t";
      var meth := if pending.kind == PlainGoal then "$/lean/plainGoal" else "$/lean/plainTermGoal";
      && Field(body, "jsonrpc") == Some(Str("2.0"))
      && Field(body, "id") == Some(Str("lhv-q" + Numerals.Decimal(pending.generation) + tag))
      && Field(body, "method") == Some(Str(meth))
      && Field(Field(params, "textDocument"), "uri") == Some(Str(pending.doc.uri))
      && Field(Field(params, "position"), "line") == Some(Num(pending.position.line))
      && Field(Field(params, "position"), "character") == Some(Num(pending.position.character))
  {
  }

  /** A query is a request under its own id, and asks about its own document and
      position. */
  lemma QueryBodyCarries(pending: Pending)
    requires pending.position.line < U32_RANGE && pending.position.character < U32_RANGE
    ensures
      var params := Field(Some(QueryBody(pending)), "params");
      && AsStr(Field(Field(params, "textDocument"), "uri")) == Some(pending.doc.uri)
      && ParsePosition(Field(params, "position")) == Some(pending.position)
  {
  }

  lemma QueryBodyAsks(pending: Pending)
    ensures Envelope.AskedId(Some(QueryBody(pending))) == Some(IdOf(pending))
    ensures Envelope.AnsweredId(Some(QueryBody(pending))) == None
  {
    var body := Some(QueryBody(pending));
    assert Field(body, "id") == Some(Str(IdOf(pending)));
    assert Field(body, "method") == Some(Str(pending.kind.Method()));
  }

  // ---- The registry ----------------------------------------------------------

  /** The outstanding ids, the 64-bit generation counter, and how many generations
      were ever opened. */
  datatype Registry = Registry(table: map<string, Pending>, generation: u64, issued: nat)

  const NO_REQUESTS := Registry(map[], 0, 0)

  function OpenGeneration(reg: Registry): Registry {
    reg.(generation := Increment(reg.generation), issued := reg.issued + 1)
  }

  function WithEntry(reg: Registry, id: string, pending: Pending): Registry {
    reg.(table := reg.table[id := pending])
  }

  function WithoutEntry(reg: Registry, id: string): Registry {
    reg.(table := reg.table - {id})
  }

  class Outstanding {
    var table: map<string, Pending>
    var generation: u64
    ghost var issued: nat

    ghost function View(): Registry
      reads this
    {
      Registry(table, generation, issued)
    }

    constructor ()
      ensures View() == NO_REQUESTS
    {
      table, generation, issued := map[], 0, 0;
    }

    method NextGeneration() returns (g: u64)
      modifies this
      ensures View() == OpenGeneration(old(View())) && g == generation
    {
      generation := Increment(generation);
      issued := issued + 1;
      g := generation;
    }

    method Register(id: string, pending: Pending)
      modifies this
      ensures View() == WithEntry(old(View()), id, pending)
    {
      table := table[id := pending];
    }

    /** Remove an id, returning what it was waiting for. */
    method Take(id: string) returns (pending: Option<Pending>)
      modifies this
      ensures pending == if id in old(table) then Some(old(table)[id]) else None
      ensures View() == WithoutEntry(old(View()), id)
    {
      pending := if id in table then Some(table[id]) else None;
      table := table - {id};
    }
  }

  // ---- Injection ---------------------------------------------------------------

  /** Where a frame queued to Lean comes from. An injected one remembers what it asks
      and which client messages (by their place in the queue) led to it. */
  datatype Origin = FromClient | Injected(pending: Pending, cause: seq<nat>)

  datatype Item = Item(packet: Packet, origin: Origin)

  function QueryItem(pending: Pending, cause: seq<nat>, body: bytes): Item {
    Item(Packet(Codec.FromBody(body), Some(QueryBody(pending))), Injected(pending, cause))
  }

  /** The querier's share of the state: the queue to Lean and the registry. */
  datatype Desk = Desk(lean: Sink<Item>, reg: Registry)

  /** One query of the current generation: register, try to send, undo on failure. A slot
      that is `reserved` for the client's waiting frame is not taken. */
  function InjectOne(desk: Desk, kind: QueryKind, doc: DocRef, position: Position, cause: seq<nat>, body: bytes,
                     reserved: bool): Desk {
    var pending := Pending(kind, doc, position, desk.reg.generation);
    var registered := WithEntry(desk.reg, IdOf(pending), pending);
    if desk.lean.HasRoomBeside(reserved) then Desk(desk.lean.Push(QueryItem(pending, cause, body)), registered)
    else Desk(desk.lean, WithoutEntry(registered, IdOf(pending)))
  }

  /** Both queries for a focus, in a new generation. */
  function InjectBoth(desk: Desk, doc: DocRef, position: Position, cause: seq<nat>, bodies: (bytes, bytes),
                      reserved: bool): Desk {
    var ready := desk.(reg := OpenGeneration(desk.reg));
    var first := InjectOne(ready, PlainGoal, doc, position, cause, bodies.0, reserved);
    InjectOne(first, PlainTermGoal, doc, position, cause, bodies.1, reserved)
  }

  /** What a request comes to, by the slots that are free beside one reserved: with two or
      more, both queries are queued, the goal query first, and both ids registered; with one,
      the goal query alone; with none, or no writer, nothing is queued or registered. The
      generation is new in every case. */
  lemma RequestInjectsBoth(desk: Desk, doc: DocRef, position: Position, cause: seq<nat>, bodies: (bytes, bytes),
                           reserved: bool)
    ensures
      var after := InjectBoth(desk, doc, position, cause, bodies, reserved);
      var g := Increment(desk.reg.generation);
      var goal, term := Pending(PlainGoal, doc, position, g), Pending(PlainTermGoal, doc, position, g);
      var first := Item(Packet(Codec.FromBody(bodies.0), Some(QueryBody(goal))), Injected(goal, cause));
      var second := Item(Packet(Codec.FromBody(bodies.1), Some(QueryBody(term))), Injected(term, cause));
      var free := if desk.lean.writer.Closed? then 0 else 1024 - |desk.lean.queue| - (if reserved then 1 else 0);
      var items := if free >= 2 then [first, second] else if free == 1 then [first] else [];
      && after.lean == desk.lean.(sent := desk.lean.sent + items, queue := desk.lean.queue + items)
      && after.reg.generation == g && after.reg.issued == desk.reg.issued + 1
      && (free >= 2 ==> after.reg.table == desk.reg.table[IdOf(goal) := goal][IdOf(term) := term])
      && (free == 1 ==> after.reg.table == desk.reg.table[IdOf(goal) := goal] - {IdOf(term)})
      && (free <= 0 ==> after.reg.table == desk.reg.table - {IdOf(goal), IdOf(term)})
  {
    var g := Increment(desk.reg.generation);
    var goal, term := Pending(PlainGoal, doc, position, g), Pending(PlainTermGoal, doc, position, g);
    InjectedIdInjective(g, PlainGoal, g, PlainTermGoal);
    hide QueryBody, IdOf;
    var ready := desk.(reg := OpenGeneration(desk.reg));
    var first := InjectOne(ready, PlainGoal, doc, position, cause, bodies.0, reserved);
    if ready.lean.HasRoomBeside(reserved) {
      var items := [QueryItem(goal, cause, bodies.0)];
      if first.lean.HasRoomBeside(reserved) {
        assert desk.lean.sent + items + [QueryItem(term, cause, bodies.1)]
            == desk.lean.sent + (items + [QueryItem(term, cause, bodies.1)]);
        assert desk.lean.queue + items + [QueryItem(term, cause, bodies.1)]
            == desk.lean.queue + (items + [QueryItem(term, cause, bodies.1)]);
      }
    } else {
      assert desk.lean.sent + [] == desk.lean.sent && desk.lean.queue + [] == desk.lean.queue;
    }
  }

  class Querier {
    const toLean: SinkQueue<Item>
    const outstanding: Outstanding
    const serialize: Json -> bytes

    ghost function View(): Desk
      reads toLean, outstanding
    {
      Desk(toLean.View(), outstanding.View())
    }

    constructor (toLean: SinkQueue<Item>, outstanding: Outstanding, serialize: Json -> bytes)
      ensures this.toLean == toLean && this.outstanding == outstanding && this.serialize == serialize
    {
      this.toLean, this.outstanding, this.serialize := toLean, outstanding, serialize;
    }

    /** The bytes of both queries of the next generation. */
    ghost function NextBodies(doc: DocRef, position: Position): (bytes, bytes)
      reads outstanding
    {
      var g := Increment(outstanding.generation);
      (serialize(QueryBody(Pending(PlainGoal, doc, position, g))),
       serialize(QueryBody(Pending(PlainTermGoal, doc, position, g))))
    }

    /** Inject both goal queries for a focus. Never waits: a query that does not fit, beside
        what is reserved for a waiting sender, is dropped and its id forgotten. */
    method Request(doc: DocRef, position: Position, cause: seq<nat>, reserved: bool) returns (g: u64)
      requires toLean.Valid()
      modifies toLean, outstanding
      ensures toLean.Valid()
      ensures View() == InjectBoth(old(View()), doc, position, cause, old(NextBodies(doc, position)), reserved)
      ensures g == outstanding.generation == Increment(old(outstanding.generation))
      ensures !old(toLean.writer).Closed? && |old(toLean.queue)| + (if reserved then 1 else 0) + 2 <= 1024 ==>
        var goal, term := Pending(PlainGoal, doc, position, g), Pending(PlainTermGoal, doc, position, g);
        && toLean.sent == old(toLean.sent) + [QueryItem(goal, cause, old(NextBodies(doc, position)).0),
                                              QueryItem(term, cause, old(NextBodies(doc, position)).1)]
        && IdOf(goal) in outstanding.table && outstanding.table[IdOf(goal)] == goal
        && IdOf(term) in outstanding.table && outstanding.table[IdOf(term)] == term
    {
      RequestInjectsBoth(View(), doc, position, cause, NextBodies(doc, position), reserved);
      ghost var next := Increment(outstanding.generation);
      InjectedIdInjective(next, PlainGoal, next, PlainTermGoal);
      hide QueryBody, IdOf;
      g := outstanding.NextGeneration();
      ghost var ready := View();
      ghost var bodies := old(NextBodies(doc, position));
      var kinds := [PlainGoal, PlainTermGoal];
      for i := 0 to 2
        invariant outstanding.generation == g && toLean.Valid()
        invariant i == 0 ==> View() == ready
        invariant i == 1 ==> View() == InjectOne(ready, PlainGoal, doc, position, cause, bodies.0, reserved)
        invariant i == 2 ==>
          View() == InjectOne(InjectOne(ready, PlainGoal, doc, position, cause, bodies.0, reserved),
                              PlainTermGoal, doc, position, cause, bodies.1, reserved)
      {
        var pending := Pending(kinds[i], doc, position, g);
        var id := IdOf(pending);
        outstanding.Register(id, pending);
        var body := serialize(QueryBody(pending));
        var frame := Codec.FromBody(body);
        var sent := toLean.TrySend(Item(Packet(frame, Some(QueryBody(pending))), Injected(pending, cause)), reserved);
        if !sent {
          var _ := outstanding.Take(id);
        }
      }
    }
  }

  // ---- Answers -------------------------------------------------------------------

  /** The strings of a list, in order; anything else in it is skipped. */
  function Strings(items: seq<Json>): seq<string> {
    if items == [] then []
    else (if items[0].Str? then [items[0].s] else []) + Strings(items[1..])
  }

  /** What a consumed answer folds to. A null result means no tactic block is there. */
  function AnswerUpdate(pending: Pending, value: Json): (u: Update)
    ensures Writes(u, FocusSlot) && u.doc == pending.doc && u.position == pending.position
    ensures u.SetGoal? <==> pending.kind == PlainGoal
  {
    var result := Field(Some(value), "result");
    match pending.kind
    case PlainGoal =>
      var goals := match AsArr(Field(result, "goals")) case Some(items) => Strings(items) case None => [];
      SetGoal(pending.doc, pending.position, result.Some? && result != Some(Null), goals,
              AsStr(Field(result, "rendered")))
    case PlainTermGoal =>
      SetTerm(pending.doc, pending.position, AsStr(Field(result, "goal")))
  }

  lemma {:induction false} StringsAppend(a: seq<Json>, b: seq<Json>)
    ensures Strings(a + b) == Strings(a) + Strings(b)
  {
    if a == [] {
      assert a + b == b;
    } else {
      assert (a + b)[1..] == a[1..] + b;
      StringsAppend(a[1..], b);
    }
  }

  /** What is kept of a list are its strings, in order: an item in any place adds itself
      there if it is a string, and nothing otherwise. */
  lemma StringsInOrder(before: seq<Json>, item: Json, after: seq<Json>)
    ensures Strings(before + [item] + after) ==
      Strings(before) + (if item.Str? then [item.s] else []) + Strings(after)
  {
    StringsOfOne(item);
    hide Strings;
    StringsAppend(before, [item]);
    StringsAppend(before + [item], after);
  }

  lemma StringsOfOne(item: Json)
    ensures Strings([item]) == if item.Str? then [item.s] else []
  {
    assert [item][1..] == [];
  }

  /** What an answer says of the focus it was asked for. A missing or null result says that
      there is no tactic block and clears the goals; a result with goals shows them, and the
      rendering and the term goal are shown exactly when they are strings. */
  lemma AnswerMeans(pending: Pending, fields: map<string, Json>)
    ensures
      var u := AnswerUpdate(pending, Obj(fields));
      var absent := "result" !in fields || fields["result"] == Null;
      && u.doc == pending.doc && u.position == pending.position
      && (pending.kind == PlainGoal ==>
            && u.inTactic == !absent
            && (absent ==> u.goals == [] && u.rendered == None))
      && (pending.kind == PlainTermGoal && absent ==> u.term == None)
    ensures "result" in fields && fields["result"].Obj? ==>
      var u, result := AnswerUpdate(pending, Obj(fields)), fields["result"].fields;
      && (pending.kind == PlainGoal ==>
            && (forall items :: "goals" in result && result["goals"] == Arr(items) ==> u.goals == Strings(items))
            && ("goals" !in result || !result["goals"].Arr? ==> u.goals == [])
            && (forall text :: u.rendered == Some(text) <==> "rendered" in result && result["rendered"] == Str(text)))
      && (pending.kind == PlainTermGoal ==>
            forall text :: u.term == Some(text) <==> "goal" in result && result["goal"] == Str(text))
  {
  }

  /** Fold a consumed answer into the snapshot. */
  method HandleInjectedResponse(state: StateHandle, pending: Pending, value: Option<Json>)
    requires state.Valid()
    modifies state
    ensures state.Valid()
    ensures state.log == old(state.log) + if value.Some? then [AnswerUpdate(pending, value.value)] else []
  {
    if value.None? {
      return;
    }
    var result := Field(value, "result");
    match pending.kind {
      case PlainGoal =>
        var inTactic := result.Some? && !result.value.Null?;
        var items := AsArr(Field(result, "goals"));
        var goals := if items.Some? then Strings(items.value) else [];
        var rendered := AsStr(Field(result, "rendered"));
        state.Update(SetGoal(pending.doc, pending.position, inTactic, goals, rendered));
      case PlainTermGoal =>
        var term := AsStr(Field(result, "goal"));
        state.Update(SetTerm(pending.doc, pending.position, term));
    }
  }
}
