/** The debounce of the snoop task: bursts of focus events coalesce to the latest one,
    which fires no sooner than the quiet period after it. Time is counted in ticks. */
module Debounce {
  import opened Prelude

  datatype Event<T> = Event(time: nat, focus: T)

  /** A firing, and which event it was for. */
  datatype Firing<T> = Firing(time: nat, focus: T, source: int)

  /** The timer and its history. */
  datatype Timer<T> = Timer(
    now: nat,
    pending: Option<T>,
    deadline: nat,
    events: seq<Event<T>>,
    firings: seq<Firing<T>>)

  function NewTimer<T>(start: nat, debounce: nat): Timer<T> {
    Timer(start, None, start + debounce, [], [])
  }

  /** What can happen next: time passes, a message is processed (with the focus it
      yields, if any), or the elapsed timer is picked. When a message is waiting and
      the timer has elapsed, either may go first. */
  datatype Label<T> = Elapse(ticks: nat) | Process(focus: Option<T>) | Fire

  predicate Enabled<T>(t: Timer<T>, l: Label<T>) {
    l.Fire? ==> t.pending.Some? && t.deadline <= t.now
  }

  function Next<T>(t: Timer<T>, debounce: nat, l: Label<T>): Timer<T>
    requires Enabled(t, l)
  {
    match l
    case Elapse(ticks) => t.(now := t.now + ticks)
    case Process(None) => t
    case Process(Some(f)) =>
      t.(pending := Some(f), deadline := t.now + debounce, events := t.events + [Event(t.now, f)])
    case Fire =>
      t.(pending := None, firings := t.firings + [Firing(t.now, t.pending.value, |t.events| - 1)])
  }

  ghost predicate Reaches<T>(s: Timer<T>, debounce: nat, labels: seq<Label<T>>, t: Timer<T>)
    decreases |labels|
  {
    if labels == [] then s == t
    else Enabled(s, labels[0]) && Reaches(Next(s, debounce, labels[0]), debounce, labels[1..], t)
  }

  /** Events and firings are in the order of time. */
  ghost predicate Ordered<T>(t: Timer<T>) {
    && (forall i, j :: 0 <= i < j < |t.events| ==> t.events[i].time <= t.events[j].time)
    && (forall i :: 0 <= i < |t.events| ==> t.events[i].time <= t.now)
    && (forall i, j :: 0 <= i < j < |t.firings| ==> t.firings[i].source < t.firings[j].source)
  }

  /** A firing is for an event, at least the quiet period after it, and no event that
      the task processed between the two. */
  ghost predicate FiredFor<T>(t: Timer<T>, debounce: nat, f: Firing<T>) {
    && 0 <= f.source < |t.events|
    && t.events[f.source].focus == f.focus
    && t.events[f.source].time + debounce <= f.time <= t.now
    && forall k :: f.source < k < |t.events| ==> f.time <= t.events[k].time
  }

  /** What is pending is the last event, and it has not fired. */
  ghost predicate PendingIsLast<T>(t: Timer<T>, debounce: nat) {
    t.pending.Some? ==>
      && t.events != []
      && t.pending == Some(t.events[|t.events| - 1].focus)
      && t.deadline == t.events[|t.events| - 1].time + debounce
      && forall i :: 0 <= i < |t.firings| ==> t.firings[i].source < |t.events| - 1
  }

  ghost predicate Valid<T>(t: Timer<T>, debounce: nat) {
    && Ordered(t)
    && PendingIsLast(t, debounce)
    && forall i :: 0 <= i < |t.firings| ==> FiredFor(t, debounce, t.firings[i])
  }

  lemma StepKeepsValid<T>(t: Timer<T>, debounce: nat, l: Label<T>)
    requires Valid(t, debounce) && Enabled(t, l)
    ensures Valid(Next(t, debounce, l), debounce)
  {
    var u := Next(t, debounce, l);
    forall i | 0 <= i < |u.firings| ensures FiredFor(u, debounce, u.firings[i]) {
      if i < |t.firings| {
        assert FiredFor(t, debounce, t.firings[i]);
      }
    }
  }

  lemma {:induction false} RunKeepsValid<T>(s: Timer<T>, debounce: nat, labels: seq<Label<T>>, t: Timer<T>)
    requires Valid(s, debounce) && Reaches(s, debounce, labels, t)
    ensures Valid(t, debounce)
    decreases |labels|
  {
    if labels != [] {
      StepKeepsValid(s, debounce, labels[0]);
      RunKeepsValid(Next(s, debounce, labels[0]), debounce, labels[1..], t);
    }
  }

  /** In every run: each firing is for the last event processed before it, at least the
      quiet period later; no event fires twice; and consecutive firings are at least
      the quiet period apart. */
  lemma EveryRunDebounces<T>(start: nat, debounce: nat, labels: seq<Label<T>>, t: Timer<T>)
    requires Reaches(NewTimer(start, debounce), debounce, labels, t)
    ensures forall i :: 0 <= i < |t.firings| ==> FiredFor(t, debounce, t.firings[i])
    ensures forall i, j :: 0 <= i < j < |t.firings| ==> t.firings[i].source != t.firings[j].source
    ensures forall i :: 0 <= i < |t.firings| - 1 ==> t.firings[i].time + debounce <= t.firings[i + 1].time
  {
    RunKeepsValid(NewTimer(start, debounce), debounce, labels, t);
    forall i | 0 <= i < |t.firings| - 1 ensures t.firings[i].time + debounce <= t.firings[i + 1].time {
      assert FiredFor(t, debounce, t.firings[i]) && FiredFor(t, debounce, t.firings[i + 1]);
    }
  }

  // ---- Rate -----------------------------------------------------------------------

  lemma {:induction false} Spread<T>(firings: seq<Firing<T>>, debounce: nat, i: nat, j: nat)
    requires forall k :: 0 <= k < |firings| - 1 ==> firings[k].time + debounce <= firings[k + 1].time
    requires i <= j < |firings|
    ensures firings[i].time + (j - i) * debounce <= firings[j].time
    decreases j - i
  {
    if i < j {
      Spread(firings, debounce, i, j - 1);
      assert (j - i) * debounce == (j - 1 - i) * debounce + debounce;
    }
  }

  /** The firings within a closed window of time. */
  ghost function Within<T>(firings: seq<Firing<T>>, from: nat, length: nat): set<nat> {
    set i: nat | i < |firings| && from <= firings[i].time <= from + length
  }

  lemma {:induction false} Extremes(s: set<nat>) returns (lo: nat, hi: nat)
    requires s != {}
    ensures lo in s && hi in s && |s| <= hi - lo + 1
    ensures forall x :: x in s ==> lo <= x <= hi
    decreases |s|
  {
    var x :| x in s;
    var rest := s - {x};
    assert s == rest + {x};
    if rest == {} {
      return x, x;
    }
    lo, hi := Extremes(rest);
    if lo < x < hi {
      RangeSize(s, lo, hi);
    }
    lo, hi := if x < lo then x else lo, if x > hi then x else hi;
  }

  lemma {:induction false} RangeSize(s: set<nat>, lo: nat, hi: nat)
    requires lo <= hi + 1 && forall x :: x in s ==> lo <= x <= hi
    ensures |s| <= hi - lo + 1
    decreases hi + 1 - lo
  {
    if lo == hi + 1 {
      assert s == {};
    } else {
      RangeSize(s - {lo}, lo + 1, hi);
      assert s <= s - {lo} + {lo};
    }
  }

  /** Any window of length `length` holds at most `length / debounce` + 1 firings. */
  lemma WindowBound<T>(start: nat, debounce: nat, labels: seq<Label<T>>, t: Timer<T>, from: nat, length: nat)
    requires debounce > 0
    requires Reaches(NewTimer(start, debounce), debounce, labels, t)
    ensures |Within(t.firings, from, length)| <= length / debounce + 1
  {
    EveryRunDebounces(start, debounce, labels, t);
    var s := Within(t.firings, from, length);
    if s != {} {
      var lo, hi := Extremes(s);
      Spread(t.firings, debounce, lo, hi);
      FitsQuotient(hi - lo, debounce, length);
    }
  }

  lemma FitsQuotient(k: nat, d: nat, length: nat)
    requires d > 0 && k * d <= length
    ensures k <= length / d
  {
    var q := length / d;
    assert length < (q + 1) * d by {
      assert length == q * d + length % d;
    }
    if q + 1 <= k {
      MulMonotone(q + 1, k, d);
    }
  }

  lemma MulMonotone(a: nat, b: nat, d: nat)
    requires a <= b
    ensures a * d <= b * d
  {
    assert b * d == a * d + (b - a) * d;
  }

  // ---- The task's own state -----------------------------------------------------------

  lemma {:induction false} ReachesSnoc<T>(s: Timer<T>, debounce: nat, labels: seq<Label<T>>, t: Timer<T>, l: Label<T>)
    requires Reaches(s, debounce, labels, t) && Enabled(t, l)
    ensures Reaches(s, debounce, labels + [l], Next(t, debounce, l))
    decreases |labels|
  {
    if labels == [] {
      assert [l][1..] == [];
    } else {
      assert (labels + [l])[1..] == labels[1..] + [l];
      ReachesSnoc(Next(s, debounce, labels[0]), debounce, labels[1..], t, l);
    }
  }

  class Debouncer<T> {
    const start: nat
    const debounce: nat
    var pending: Option<T>
    var deadline: nat
    ghost var history: Timer<T>
    ghost var steps: seq<Label<T>>

    /** The recorded history is that of a run from the start, and describes the fields as of
        the last time the clock was read. */
    ghost predicate Valid()
      reads this
    {
      && history.pending == pending && history.deadline == deadline
      && Reaches(NewTimer(start, debounce), debounce, steps, history)
    }

    constructor (start: nat, debounce: nat)
      ensures Valid() && this.debounce == debounce && history == NewTimer(start, debounce)
    {
      this.start := start;
      this.debounce := debounce;
      pending := None;
      deadline := start + debounce;
      history := NewTimer(start, debounce);
      steps := [];
    }

    ghost method Record(l: Label<T>)
      requires Enabled(history, l) && Reaches(NewTimer(start, debounce), debounce, steps, history)
      modifies this`history, this`steps
      ensures history == Next(old(history), debounce, l)
      ensures Reaches(NewTimer(start, debounce), debounce, steps, history)
    {
      ReachesSnoc(NewTimer(start, debounce), debounce, steps, history, l);
      history, steps := Next(history, debounce, l), steps + [l];
    }

    /** A processed message: if it yields a focus, that replaces the pending one and
        restarts the quiet period. */
    method Process(focus: Option<T>, now: nat)
      requires Valid() && history.now <= now
      modifies this
      ensures Valid()
      ensures
        var waited := Next(old(history), debounce, Elapse(now - old(history).now));
        history == Next(waited, debounce, Label.Process(focus))
    {
      hide Reaches;
      Record(Elapse(now - history.now));
      if focus.Some? {
        pending := focus;
        deadline := now + debounce;
      }
      Record(Label.Process(focus));
    }

    /** The timer branch: ready once the quiet period is over with a focus pending. */
    method Poll(now: nat) returns (focus: Option<T>)
      requires Valid() && history.now <= now
      modifies this
      ensures Valid()
      ensures focus == if old(pending).Some? && old(deadline) <= now then old(pending) else None
      ensures
        var waited := Next(old(history), debounce, Elapse(now - old(history).now));
        history == if focus.Some? then Next(waited, debounce, Fire) else waited
    {
      hide Reaches;
      Record(Elapse(now - history.now));
      if pending.None? || now < deadline {
        return None;
      }
      focus := pending;
      Record(Fire);
      pending := None;
    }
  }

  /** Whatever was called on a debouncer and when, its firings obey the quiet period. */
  lemma DebouncerObeys<T>(d: Debouncer<T>)
    requires d.Valid()
    ensures forall i :: 0 <= i < |d.history.firings| ==> FiredFor(d.history, d.debounce, d.history.firings[i])
    ensures forall i :: 0 <= i < |d.history.firings| - 1 ==>
      d.history.firings[i].time + d.debounce <= d.history.firings[i + 1].time
  {
    EveryRunDebounces(d.start, d.debounce, d.steps, d.history);
  }
}
