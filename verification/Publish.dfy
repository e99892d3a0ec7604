/** Publication to any number of viewers: each has its own task and receiver on a channel
    that keeps only the latest snapshot. */
module Publish {
  import opened Prelude
  import opened Wire
  import opened StateStore

  /** A viewer's task writes a snapshot, waits for a change, or has ended. */
  datatype Phase = Writing(snapshot: Snapshot) | Waiting | Gone

  /** `seen` is the version last read, `received` the snapshots completely written, and
      `versions` the version of every snapshot read so far. */
  datatype Viewer = Viewer(phase: Phase, seen: nat, received: seq<Snapshot>, versions: seq<nat>)

  /** Read the latest snapshot, mark it seen, and start writing it. */
  function Borrow(v: Viewer, log: seq<Update>): Viewer {
    v.(phase := Writing(Fold(log)), seen := |log|, versions := v.versions + [|log|])
  }

  function Connected(log: seq<Update>): Viewer { Borrow(Viewer(Waiting, 0, [], []), log) }

  /** The write is complete: go on with what changed meanwhile, or wait. */
  function Delivered(v: Viewer, log: seq<Update>): Viewer
    requires v.phase.Writing?
  {
    var w := v.(phase := Waiting, received := v.received + [v.phase.snapshot]);
    if v.seen != |log| then Borrow(w, log) else w
  }

  datatype Hub = Hub(log: seq<Update>, viewers: map<nat, Viewer>)

  datatype Label = Publish(u: Update) | Connect(id: nat) | WriteDone(id: nat) | WriteFails(id: nat) | Wake(id: nat)

  predicate Enabled(h: Hub, l: Label) {
    match l
    case Publish(_) => true
    case Connect(id) => id !in h.viewers
    case WriteDone(id) => id in h.viewers && h.viewers[id].phase.Writing?
    case WriteFails(id) => id in h.viewers && h.viewers[id].phase.Writing?
    case Wake(id) => id in h.viewers && h.viewers[id].phase.Waiting? && h.viewers[id].seen != |h.log|
  }

  function Next(h: Hub, l: Label): Hub
    requires Enabled(h, l)
  {
    match l
    case Publish(u) => h.(log := h.log + [u])
    case Connect(id) => h.(viewers := h.viewers[id := Connected(h.log)])
    case WriteDone(id) => h.(viewers := h.viewers[id := Delivered(h.viewers[id], h.log)])
    case WriteFails(id) => h.(viewers := h.viewers[id := h.viewers[id].(phase := Gone)])
    case Wake(id) => h.(viewers := h.viewers[id := Borrow(h.viewers[id], h.log)])
  }

  ghost predicate Run(h: Hub, labels: seq<Label>, t: Hub)
    decreases |labels|
  {
    if labels == [] then h == t
    else Enabled(h, labels[0]) && Run(Next(h, labels[0]), labels[1..], t)
  }

  const INIT := Hub([], map[])

  // ---- The invariant ------------------------------------------------------------------------

  /** The snapshots a viewer read are those of strictly increasing versions, in order. */
  ghost predicate ViewerHolds(v: Viewer, log: seq<Update>) {
    && v.versions != []
    && v.seen == v.versions[|v.versions| - 1] <= |log|
    && (forall i, j :: 0 <= i < j < |v.versions| ==> v.versions[i] < v.versions[j])
    && (if v.phase.Waiting? then |v.received| == |v.versions| else |v.received| == |v.versions| - 1)
    && (forall i :: 0 <= i < |v.received| ==> v.versions[i] <= |log| && v.received[i] == Fold(log[..v.versions[i]]))
    && (v.phase.Writing? ==> v.phase.snapshot == Fold(log[..v.seen]))
  }

  ghost predicate Holds(h: Hub) {
    forall id :: id in h.viewers ==> ViewerHolds(h.viewers[id], h.log)
  }

  lemma PublishKeepsViewer(v: Viewer, log: seq<Update>, u: Update)
    requires ViewerHolds(v, log)
    ensures ViewerHolds(v, log + [u])
  {
    hide Fold;
    assert forall n :: 0 <= n <= |log| ==> (log + [u])[..n] == log[..n];
  }

  lemma BorrowKeepsViewer(v: Viewer, log: seq<Update>)
    requires ViewerHolds(v, log) && v.phase.Waiting? && v.seen != |log|
    ensures ViewerHolds(Borrow(v, log), log)
  {
    hide Fold;
    assert log[..|log|] == log;
    var w := Borrow(v, log);
    assert forall i :: 0 <= i < |v.versions| ==> w.versions[i] == v.versions[i];
  }

  lemma DeliveredKeepsViewer(v: Viewer, log: seq<Update>)
    requires ViewerHolds(v, log) && v.phase.Writing?
    ensures ViewerHolds(Delivered(v, log), log)
  {
    hide Fold;
    var w := v.(phase := Waiting, received := v.received + [v.phase.snapshot]);
    assert ViewerHolds(w, log);
    if v.seen != |log| {
      BorrowKeepsViewer(w, log);
    }
  }

  lemma StepKeepsViewers(h: Hub, l: Label)
    requires Holds(h) && Enabled(h, l)
    ensures Holds(Next(h, l))
  {
    hide ViewerHolds, Delivered, Borrow;
    match l
    case Publish(u) =>
      forall id | id in h.viewers ensures ViewerHolds(h.viewers[id], h.log + [u]) {
        PublishKeepsViewer(h.viewers[id], h.log, u);
      }
    case Connect(id) => ConnectedHolds(h.log);
    case WriteDone(id) => DeliveredKeepsViewer(h.viewers[id], h.log);
    case WriteFails(id) => FailureKeepsViewer(h.viewers[id], h.log);
    case Wake(id) => BorrowKeepsViewer(h.viewers[id], h.log);
  }

  lemma FailureKeepsViewer(v: Viewer, log: seq<Update>)
    requires ViewerHolds(v, log) && v.phase.Writing?
    ensures ViewerHolds(v.(phase := Gone), log)
  {
  }

  lemma ConnectedHolds(log: seq<Update>)
    ensures ViewerHolds(Connected(log), log)
  {
    assert log[..|log|] == log;
  }

  lemma {:induction false} RunKeepsViewers(h: Hub, labels: seq<Label>, t: Hub)
    requires Holds(h) && Run(h, labels, t)
    ensures Holds(t)
    decreases |labels|
  {
    if labels != [] {
      StepKeepsViewers(h, labels[0]);
      RunKeepsViewers(Next(h, labels[0]), labels[1..], t);
    }
  }

  // ---- What viewers get -----------------------------------------------------------------------

  /** In every run with fewer than 2^64 updates: each snapshot a viewer received is the fold
      of exactly as many updates as its counter says, the counters strictly increase, and
      a viewer waiting with nothing unseen has received the current state. */
  lemma ViewersGetSnapshotsInOrder(labels: seq<Label>, t: Hub, id: nat)
    requires Run(INIT, labels, t) && |t.log| < U64_RANGE && id in t.viewers
    ensures
      var v := t.viewers[id];
      && (forall i :: 0 <= i < |v.received| ==>
            v.received[i].seqNo <= |t.log| && v.received[i] == Fold(t.log[..v.received[i].seqNo]))
      && (forall i, j :: 0 <= i < j < |v.received| ==> v.received[i].seqNo < v.received[j].seqNo)
      && (v.phase.Waiting? && v.seen == |t.log| ==>
            v.received != [] && v.received[|v.received| - 1] == Fold(t.log))
  {
    hide Run, Fold;
    RunKeepsViewers(INIT, labels, t);
    var v := t.viewers[id];
    assert ViewerHolds(v, t.log);
    forall i | 0 <= i < |v.received| ensures v.received[i].seqNo == v.versions[i] {
      FoldShowsLastWrite(t.log[..v.versions[i]], GoalSlot);
    }
    assert t.log[..|t.log|] == t.log;
  }

  /** Replay on connect: whatever happens later, the first snapshot a viewer receives is
      the one that was current when it connected. */
  lemma {:induction false} FirstSnapshotIsCurrent(h: Hub, id: nat, labels: seq<Label>, t: Hub)
    requires Enabled(h, Connect(id)) && Run(Next(h, Connect(id)), labels, t)
    ensures id in t.viewers && (t.viewers[id].received != [] ==> t.viewers[id].received[0] == Fold(h.log))
  {
    hide Fold;
    FirstIsKept(Next(h, Connect(id)), id, labels, t, Fold(h.log));
  }

  ghost predicate StartsWith(h: Hub, id: nat, first: Snapshot) {
    && id in h.viewers
    && (if h.viewers[id].received == [] then
          h.viewers[id].phase.Waiting? || h.viewers[id].phase.Gone? || h.viewers[id].phase.snapshot == first
        else h.viewers[id].received[0] == first)
    && (h.viewers[id].phase.Waiting? ==> h.viewers[id].received != [])
  }

  lemma {:induction false} FirstIsKept(h: Hub, id: nat, labels: seq<Label>, t: Hub, first: Snapshot)
    requires StartsWith(h, id, first) && Run(h, labels, t)
    ensures StartsWith(t, id, first)
    decreases |labels|
  {
    if labels != [] {
      hide Fold;
      assert StartsWith(Next(h, labels[0]), id, first);
      FirstIsKept(Next(h, labels[0]), id, labels[1..], t, first);
    }
  }

  /** The updates among the labels, in order. */
  function Published(labels: seq<Label>): seq<Update> {
    if labels == [] then []
    else (if labels[0].Publish? then [labels[0].u] else []) + Published(labels[1..])
  }

  /** No viewer affects the state: it is the fold of what was published, whatever the
      viewers did in between. */
  lemma {:induction false} ViewersNeverTouchTheState(h: Hub, labels: seq<Label>, t: Hub)
    requires Run(h, labels, t)
    ensures t.log == h.log + Published(labels)
    decreases |labels|
  {
    if labels != [] {
      ViewersNeverTouchTheState(Next(h, labels[0]), labels[1..], t);
    }
  }

  function PublishAll(updates: seq<Update>): (labels: seq<Label>)
    ensures |labels| == |updates|
    ensures forall i :: 0 <= i < |labels| ==> labels[i] == Publish(updates[i])
  {
    seq(|updates|, i requires 0 <= i < |updates| => Publish(updates[i]))
  }

  /** No viewer restricts the producer: any updates can be published in a row whatever the
      viewers are doing, without one of them moving. */
  lemma {:induction false} ProducerNeverWaits(h: Hub, updates: seq<Update>)
    ensures Run(h, PublishAll(updates), h.(log := h.log + updates))
    decreases |updates|
  {
    if updates == [] {
      assert h.log + updates == h.log;
    } else {
      var labels := PublishAll(updates);
      assert labels[1..] == PublishAll(updates[1..]);
      assert h.log + updates == h.log + [updates[0]] + updates[1..];
      ProducerNeverWaits(h.(log := h.log + [updates[0]]), updates[1..]);
    }
  }

  ghost predicate CaughtUp(h: Hub, id: nat) {
    && id in h.viewers && h.viewers[id].phase.Waiting? && h.viewers[id].received != []
    && h.viewers[id].received[|h.viewers[id].received| - 1] == Fold(h.log)
  }

  /** A connected viewer catches up: whatever happened before, at most two steps of its own
      bring it to where it has received the current state and waits. */
  lemma ViewerCatchesUp(history: seq<Label>, h: Hub, id: nat) returns (labels: seq<Label>, t: Hub)
    requires Run(INIT, history, h) && id in h.viewers && !h.viewers[id].phase.Gone?
    ensures |labels| <= 2 && Run(h, labels, t) && t.log == h.log && CaughtUp(t, id)
    ensures forall i :: 0 <= i < |labels| ==> labels[i] in {WriteDone(id), Wake(id)}
  {
    hide Fold;
    RunKeepsViewers(INIT, history, h);
    var v := h.viewers[id];
    assert ViewerHolds(v, h.log);
    assert h.log[..|h.log|] == h.log;
    if v.seen != |h.log| {
      var first := if v.phase.Waiting? then Wake(id) else WriteDone(id);
      var u := Next(h, first);
      labels, t := [first, WriteDone(id)], Next(u, WriteDone(id));
      assert labels[1..] == [WriteDone(id)];
      RunOfOne(u, WriteDone(id));
    } else if v.phase.Waiting? {
      labels, t := [], h;
    } else {
      labels, t := [WriteDone(id)], Next(h, WriteDone(id));
      RunOfOne(h, WriteDone(id));
    }
  }

  lemma RunOfOne(h: Hub, l: Label)
    requires Enabled(h, l)
    ensures Run(h, [l], Next(h, l))
  {
    assert [l][1..] == [];
  }

  // ---- A viewer's task ------------------------------------------------------------------------

  class ViewerTask {
    const state: StateHandle
    var phase: Phase
    var seen: nat
    var received: seq<Snapshot>
    ghost var versions: seq<nat>

    ghost function View(): Viewer
      reads this
    {
      Viewer(phase, seen, received, versions)
    }

    /** Subscribe and start replaying the latest snapshot. */
    constructor (state: StateHandle)
      requires state.Valid()
      ensures this.state == state && View() == Connected(state.log)
    {
      this.state := state;
      phase := Writing(state.current);
      seen := state.version;
      received := [];
      versions := [|state.log|];
    }

    /** The write in progress ended. */
    method Written(ok: bool)
      requires state.Valid() && phase.Writing?
      modifies this
      ensures View() == if ok then Delivered(old(View()), state.log) else old(View()).(phase := Gone)
    {
      if !ok {
        phase := Gone;
        return;
      }
      received := received + [phase.snapshot];
      phase := Waiting;
      if seen != state.version {
        Read();
      }
    }

    /** The channel changed. */
    method Changed()
      requires state.Valid() && phase.Waiting? && seen != state.version
      modifies this
      ensures View() == Borrow(old(View()), state.log)
    {
      Read();
    }

    method Read()
      requires state.Valid()
      modifies this
      ensures View() == Borrow(old(View()), state.log)
    {
      phase := Writing(state.current);
      seen := state.version;
      versions := versions + [|state.log|];
    }
  }
}
