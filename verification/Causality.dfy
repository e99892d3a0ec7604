/** In the order of the bytes written to Lean, every injected query comes after the client
    messages that make it legal: `initialized`, the event that opened its document at its
    version, and the message whose position it carries. This holds whatever copies the
    snoop misses, because a client frame is queued before the snoop can see its copy, and
    queries go through the same queue. */
module Causality {
  import opened Prelude
  import opened Wire
  import opened Json
  import opened Query
  import opened Channel
  import opened Snoop
  import opened Forward
  import opened Pipes
  import Views

  // ---- Places in the queue ------------------------------------------------------------

  /** Strictly increasing places of client frames. */
  ghost predicate Places(sent: seq<Item>, at: seq<nat>) {
    && (forall i :: 0 <= i < |at| ==> at[i] < |sent| && sent[at[i]].origin.FromClient?)
    && (forall i, j :: 0 <= i < j < |at| ==> at[i] < at[j])
  }

  /** The messages at these places. */
  ghost function Messages(sent: seq<Item>, at: seq<nat>): (messages: seq<Option<Json>>)
    requires Places(sent, at)
    ensures |messages| == |at|
    ensures forall i :: 0 <= i < |at| ==> messages[i] == sent[at[i]].packet.value
  {
    seq(|at|, i requires 0 <= i < |at| => sent[at[i]].packet.value)
  }

  lemma PlacesGrow(sent: seq<Item>, items: seq<Item>, at: seq<nat>)
    requires Places(sent, at)
    ensures Places(sent + items, at) && Messages(sent + items, at) == Messages(sent, at)
  {
    assert forall i :: 0 <= i < |at| ==> (sent + items)[at[i]] == sent[at[i]];
  }

  /** Observing the messages at these places, the last of them yields this focus. */
  ghost predicate LeadsTo(triggers: seq<string>, sent: seq<Item>, at: seq<nat>, f: Focus) {
    && at != []
    && Places(sent, at)
    && LastFocus(triggers, Messages(sent, at)) == Some(f)
  }

  // ---- The invariant --------------------------------------------------------------------

  function Ats(inbox: seq<Copy>): (at: seq<nat>)
    ensures |at| == |inbox|
    ensures forall i :: 0 <= i < |at| ==> at[i] == inbox[i].at
  {
    seq(|inbox|, i requires 0 <= i < |inbox| => inbox[i].at)
  }

  /** The snoop has seen, and will see, a subsequence of the client's frames in order. */
  ghost predicate SnoopHolds(triggers: seq<string>, sent: seq<Item>, t: SnoopTask) {
    && Places(sent, t.observed + Ats(t.inbox))
    && (forall i :: 0 <= i < |t.inbox| ==>
          t.inbox[i].at < |sent| && t.inbox[i].message == sent[t.inbox[i].at].packet.value)
    && Places(sent, t.observed)
    && t.session == Replay(Messages(sent, t.observed))
    && (t.pending.Some? ==> LeadsTo(triggers, sent, t.pending.value.cause, t.pending.value.focus))
  }

  /** A queued query was led to by client frames queued before it. */
  ghost predicate Caused(triggers: seq<string>, sent: seq<Item>, j: nat)
    requires j < |sent|
  {
    sent[j].origin.Injected? ==>
      var pending := sent[j].origin.pending;
      && LeadsTo(triggers, sent, sent[j].origin.cause, Focus(pending.doc, pending.position))
      && (forall i :: 0 <= i < |sent[j].origin.cause| ==> sent[j].origin.cause[i] < j)
      && sent[j].packet.value == Some(QueryBody(pending))
  }

  ghost predicate CausesHold(s: State) {
    && SnoopHolds(s.triggers, s.lean.sent, s.snoop)
    && forall j :: 0 <= j < |s.lean.sent| ==> Caused(s.triggers, s.lean.sent, j)
  }

  // ---- Steps ----------------------------------------------------------------------------

  lemma LeadsToGrows(triggers: seq<string>, sent: seq<Item>, items: seq<Item>, at: seq<nat>, f: Focus)
    requires LeadsTo(triggers, sent, at, f)
    ensures LeadsTo(triggers, sent + items, at, f)
  {
    PlacesGrow(sent, items, at);
  }

  lemma CausedGrows(triggers: seq<string>, sent: seq<Item>, items: seq<Item>, j: nat)
    requires j < |sent| && Caused(triggers, sent, j)
    ensures Caused(triggers, sent + items, j)
  {
    hide LeadsTo, QueryBody;
    assert (sent + items)[j] == sent[j];
    if sent[j].origin.Injected? {
      var pending := sent[j].origin.pending;
      LeadsToGrows(triggers, sent, items, sent[j].origin.cause, Focus(pending.doc, pending.position));
    }
  }

  lemma SnoopHoldsGrows(triggers: seq<string>, sent: seq<Item>, items: seq<Item>, t: SnoopTask)
    requires SnoopHolds(triggers, sent, t)
    ensures SnoopHolds(triggers, sent + items, t)
  {
    hide LeadsTo, Replay;
    PlacesGrow(sent, items, t.observed + Ats(t.inbox));
    PlacesGrow(sent, items, t.observed);
    if t.pending.Some? {
      LeadsToGrows(triggers, sent, items, t.pending.value.cause, t.pending.value.focus);
    }
  }

  /** The client frame is in the queue before its copy is in the inbox. */
  lemma CopyKeepsSnoop(triggers: seq<string>, sent: seq<Item>, item: Item, t: SnoopTask)
    requires SnoopHolds(triggers, sent, t) && item.origin.FromClient?
    ensures SnoopHolds(triggers, sent + [item], t.(inbox := t.inbox + [Copy(item.packet.value, |sent|)]))
  {
    SnoopHoldsGrows(triggers, sent, [item], t);
    hide LeadsTo, Replay;
    var inbox := t.inbox + [Copy(item.packet.value, |sent|)];
    assert t.observed + Ats(inbox) == t.observed + Ats(t.inbox) + [|sent|];
    assert forall i :: 0 <= i < |t.observed + Ats(t.inbox)| ==> (t.observed + Ats(t.inbox))[i] < |sent|;
    assert (sent + [item])[|sent|] == item;
  }

  /** The places still to be observed, one moved on. */
  lemma PlacesShift(sent: seq<Item>, observed: seq<nat>, at: seq<nat>)
    requires Places(sent, observed + at) && Places(sent, observed) && |at| > 0
    ensures (observed + [at[0]]) + at[1..] == observed + at
    ensures at[0] < |sent| && Places(sent, observed + [at[0]])
    ensures Messages(sent, observed + [at[0]]) == Messages(sent, observed) + [sent[at[0]].packet.value]
  {
    var all, seen := observed + at, observed + [at[0]];
    assert all[|observed|] == at[0];
    assert seen == all[..|seen|];
    assert forall i :: 0 <= i < |seen| ==> seen[i] == all[i];
  }

  /** Observing a copy: the session stays the replay of what was observed. */
  lemma ObserveKeepsSnoop(triggers: seq<string>, sent: seq<Item>, t: SnoopTask)
    requires SnoopHolds(triggers, sent, t) && |t.inbox| > 0
    ensures SnoopHolds(triggers, sent, ObserveCopy(t, triggers))
  {
    var u := ObserveCopy(t, triggers);
    var at := Ats(t.inbox);
    PlacesShift(sent, t.observed, at);
    assert at[0] == t.inbox[0].at && Ats(u.inbox) == at[1..];
    var before := Messages(sent, t.observed);
    var history := Messages(sent, u.observed);
    assert history == before + [t.inbox[0].message] && history[..|history| - 1] == before;
    ReplaySnoc(before, t.inbox[0].message);
    hide After, FocusOf, Replay, Places, Messages;
  }

  lemma ClientForwardKeepsCauses(s: State)
    requires CausesHold(s) && Enabled(s, ClientForward)
    ensures CausesHold(Next(s, ClientForward))
  {
    hide SnoopHolds, Caused;
    var item := Item(s.c2s.packet, FromClient);
    SnoopHoldsGrows(s.triggers, s.lean.sent, [item], s.snoop);
    CopyKeepsSnoop(s.triggers, s.lean.sent, item, s.snoop);
    var t := Next(s, ClientForward);
    forall j | 0 <= j < |t.lean.sent| ensures Caused(t.triggers, t.lean.sent, j) {
      if j < |s.lean.sent| {
        CausedGrows(s.triggers, s.lean.sent, [item], j);
      } else {
        ClientItemIsCaused(t.triggers, t.lean.sent, j);
      }
    }
  }

  lemma ClientItemIsCaused(triggers: seq<string>, sent: seq<Item>, j: nat)
    requires j < |sent| && sent[j].origin.FromClient?
    ensures Caused(triggers, sent, j)
  {
  }

  /** A request uses the causes of its focus, all queued before it. */
  lemma FireKeepsCauses(s: State, bodies: (bytes, bytes), reserved: bool)
    requires PipesHold(s) && CausesHold(s) && Enabled(s, SnoopFire(bodies, reserved))
    ensures CausesHold(Next(s, SnoopFire(bodies, reserved)))
  {
    var t := Next(s, SnoopFire(bodies, reserved));
    var items := Views.FireShape(s, bodies, reserved);
    hide Next, Enabled, PipesHold, QueryBody, Replay, Caused;
    SnoopHoldsGrows(s.triggers, s.lean.sent, items, s.snoop);
    forall j | 0 <= j < |t.lean.sent| ensures Caused(t.triggers, t.lean.sent, j) {
      if j < |s.lean.sent| {
        CausedGrows(s.triggers, s.lean.sent, items, j);
      } else {
        assert t.lean.sent[j] == items[j - |s.lean.sent|];
        QueryIsCaused(t.triggers, s.lean.sent, items, j, s.snoop.pending.value);
      }
    }
  }

  lemma QueryIsCaused(triggers: seq<string>, sent: seq<Item>, items: seq<Item>, j: nat, aim: Aim)
    requires |sent| <= j < |sent + items| && LeadsTo(triggers, sent, aim.cause, aim.focus)
    requires
      var item := (sent + items)[j];
      && item.origin.Injected? && item.origin.cause == aim.cause
      && item.origin.pending.doc == aim.focus.doc && item.origin.pending.position == aim.focus.position
      && item.packet.value == Some(QueryBody(item.origin.pending))
    ensures Caused(triggers, sent + items, j)
  {
    hide QueryBody, LastFocus;
    LeadsToGrows(triggers, sent, items, aim.cause, aim.focus);
  }

  lemma ObserveKeepsCauses(s: State)
    requires CausesHold(s) && Enabled(s, SnoopReceive)
    ensures CausesHold(Next(s, SnoopReceive))
  {
    hide SnoopHolds, Caused, ObserveCopy;
    ObserveKeepsSnoop(s.triggers, s.lean.sent, s.snoop);
  }

  lemma CausesCarryOver(s: State, t: State)
    requires CausesHold(s)
    requires t.lean.sent == s.lean.sent && t.triggers == s.triggers && t.snoop.(alive := s.snoop.alive) == s.snoop
    ensures CausesHold(t)
  {
    hide Caused, LeadsTo, Replay, Places;
  }

  lemma StepKeepsCauses(s: State, l: Label)
    requires PipesHold(s) && CausesHold(s) && Enabled(s, l)
    ensures CausesHold(Next(s, l))
  {
    hide PipesHold, CausesHold, Next, Enabled;
    match l
    case ClientForward => ClientForwardKeepsCauses(s);
    case SnoopReceive => ObserveKeepsCauses(s);
    case SnoopFire(bodies, reserved) => FireKeepsCauses(s, bodies, reserved);
    case _ =>
      SnoopUntouched(s, l);
      CausesCarryOver(s, Next(s, l));
  }

  /** The other steps change neither the queue's history nor what the snoop knows. */
  lemma SnoopUntouched(s: State, l: Label)
    requires Enabled(s, l) && !l.ClientForward? && !l.SnoopReceive? && !l.SnoopFire?
    ensures Next(s, l).lean.sent == s.lean.sent && Next(s, l).triggers == s.triggers
    ensures Next(s, l).snoop.(alive := s.snoop.alive) == s.snoop
  {
    match l
    case ServerFrame(p) => HearShape(s, p);
    case _ =>
      hide MaySay, HearServer;
  }

  lemma {:induction false} RunKeepsCauses(s: State, labels: seq<Label>, t: State)
    requires PipesHold(s) && CausesHold(s) && Run(s, labels, t)
    ensures CausesHold(t) && t.triggers == s.triggers
    decreases |labels|
  {
    if labels != [] {
      hide PipesHold, CausesHold;
      StepKeepsPipes(s, labels[0]);
      StepKeepsCauses(s, labels[0]);
      TriggersAreFixed(s, labels[0]);
      hide Next, Enabled;
      RunKeepsCauses(Next(s, labels[0]), labels[1..], t);
    }
  }

  lemma TriggersAreFixed(s: State, l: Label)
    requires Enabled(s, l)
    ensures Next(s, l).triggers == s.triggers
  {
    hide MaySay, ObserveCopy, InjectBoth;
  }

  // ---- On the wire ------------------------------------------------------------------------

  /** The `i`-th frame written to Lean is the client's. */
  predicate ClientAt(written: seq<Item>, i: int) { 0 <= i < |written| && written[i].origin.FromClient? }

  /** Before the `j`-th frame, and up to the client's message that points at the focus, the
      client's `initialized` and the event giving the document its version were written. */
  ghost predicate FollowsCauses(triggers: seq<string>, w: seq<Item>, f: Focus, j: int) {
    exists a, b, c | a <= c && b <= c && c < j && ClientAt(w, a) && ClientAt(w, b) && ClientAt(w, c) ::
      && IsInitialized(w[a].packet.value)
      && DocEventOf(w[b].packet.value) == Some(DocEvent(f.doc.uri, Some(f.doc.version)))
      && Target(triggers, w[c].packet.value) == Some((f.doc.uri, f.position))
  }

  /** Every query written to Lean follows, in what was written before it, an `initialized`
      notification, the event that gave its document its version, and the very message
      that points at its document and position; and its own body names that document and
      position. */
  lemma QueriesFollowTheirCauses(triggers: seq<string>, labels: seq<Label>, t: State, j: nat)
    requires Run(Init(triggers), labels, t)
    requires j < |t.lean.Written()| && t.lean.Written()[j].origin.Injected?
    ensures
      var pending := t.lean.Written()[j].origin.pending;
      FollowsCauses(triggers, t.lean.Written(), Focus(pending.doc, pending.position), j)
    ensures
      var body := t.lean.Written()[j].packet.value;
      var pending := t.lean.Written()[j].origin.pending;
      && UriOf(body) == Some(pending.doc.uri)
      && ParsePosition(Field(Field(body, "params"), "position")) == Some(pending.position)
  {
    hide Run, Next, Enabled, QueryBody;
    EveryRunRefinesPipes(triggers, labels, t);
    assert CausesHold(Init(triggers)) by {
      hide QueryBody;
    }
    InitHolds(triggers);
    RunKeepsCauses(Init(triggers), labels, t);
    WrittenIsPrefix(t.lean);
    var w, sent := t.lean.Written(), t.lean.sent;
    assert Caused(t.triggers, sent, j);
    var pending := sent[j].origin.pending;
    var at := sent[j].origin.cause;
    CauseOnWire(triggers, w, sent, at, Focus(pending.doc, pending.position), j);
    QueryBodyCarries(pending);
  }

  lemma TargetFits(triggers: seq<string>, message: Option<Json>)
    requires Target(triggers, message).Some?
    ensures Target(triggers, message).value.1.line < U32_RANGE
    ensures Target(triggers, message).value.1.character < U32_RANGE
  {
  }

  /** The three causes, picked out of the messages that led to a focus. */
  lemma ThreeCauses(triggers: seq<string>, sent: seq<Item>, at: seq<nat>, f: Focus) returns (i: nat, j: nat)
    requires LeadsTo(triggers, sent, at, f)
    ensures i < |at| && IsInitialized(sent[at[i]].packet.value)
    ensures j < |at|
    ensures DocEventOf(sent[at[j]].packet.value) == Some(DocEvent(f.doc.uri, Some(f.doc.version)))
    ensures Target(triggers, sent[at[|at| - 1]].packet.value) == Some((f.doc.uri, f.position))
  {
    hide DocEventOf, IsInitialized, Target, LastFocus;
    var history := Messages(sent, at);
    FocusRefinesHistory(triggers, history, f);
    i :| 0 <= i < |at| && IsInitialized(history[i]);
    j :| LatestEvent(history, f.doc.uri, j) && DocEventOf(history[j]).value.version == Some(f.doc.version);
  }

  lemma CauseOnWire(triggers: seq<string>, w: seq<Item>, sent: seq<Item>, at: seq<nat>, f: Focus, j: nat)
    requires w <= sent && j < |w|
    requires LeadsTo(triggers, sent, at, f) && forall i :: 0 <= i < |at| ==> at[i] < j
    ensures f.position.line < U32_RANGE && f.position.character < U32_RANGE
    ensures FollowsCauses(triggers, w, f, j)
  {
    hide DocEventOf, IsInitialized, Target, LastFocus;
    var i0, i1 := ThreeCauses(triggers, sent, at, f);
    var n := |at|;
    var a, b, c := at[i0], at[i1], at[n - 1];
    TargetFits(triggers, sent[c].packet.value);
    assert w[a] == sent[a] && w[b] == sent[b] && w[c] == sent[c];
    assert ClientAt(w, a) && ClientAt(w, b) && ClientAt(w, c);
  }
}
