/** The socket path shared by every proxy of a workspace: the newest takes it over, and each
    removes it on exit only while the file there has the inode it saw after binding. */
module Takeover {
  import opened Prelude

  // ---- One proxy ------------------------------------------------------------------------------

  datatype Bound = Listening | AddrInUse | OtherError

  /** The file at the path, if any, by its inode. */
  class SocketPath {
    var inode: Option<nat>

    constructor (inode: Option<nat>)
      ensures this.inode == inode
    {
      this.inode := inode;
    }

    /** Binding needs the path to be free; `refused` is any other reason to fail. */
    method Bind(ino: nat, refused: bool) returns (r: Bound)
      modifies this
      ensures r == if refused then OtherError else if old(inode).Some? then AddrInUse else Listening
      ensures inode == if r.Listening? then Some(ino) else old(inode)
    {
      if refused {
        return OtherError;
      }
      if inode.Some? {
        return AddrInUse;
      }
      inode := Some(ino);
      return Listening;
    }

    method Remove(refused: bool)
      modifies this
      ensures inode == if refused then old(inode) else None
    {
      if !refused {
        inode := None;
      }
    }

    /** Bind, after removing whatever is in the way. The path ends up with the new socket, or
        unchanged, or empty when the removal worked and the second attempt did not. */
    method ReclaimAndBind(ino: nat, first: bool, removal: bool, second: bool) returns (r: Bound)
      modifies this
      ensures r.Listening? <==> !first && (old(inode).None? || (!removal && !second))
      ensures inode == (if r.Listening? then Some(ino)
                        else if old(inode).Some? && !first && !removal then None
                        else old(inode))
    {
      r := Bind(ino, first);
      if r.AddrInUse? {
        Remove(removal);
        r := Bind(ino, second);
      }
    }
  }

  class SocketCleanup {
    const path: SocketPath
    const captured: Option<nat>

    constructor (path: SocketPath)
      ensures this.path == path && captured == path.inode
    {
      this.path := path;
      captured := path.inode;
    }

    /** Unlink the path, but only while it still holds the inode captured. */
    method Drop()
      modifies path
      ensures path.inode == AfterCleanup(old(path.inode), captured)
    {
      if path.inode == captured {
        path.Remove(false);
      }
    }
  }

  // ---- Any number of proxies ------------------------------------------------------------------

  function AfterCleanup(path: Option<nat>, captured: Option<nat>): Option<nat> {
    if path == captured then None else path
  }

  /** A proxy that bound its socket has yet to look up the inode, serves, or ended; only
      a clean exit runs the cleanup. */
  datatype Phase = Binding | Serving(captured: Option<nat>) | Exited(captured: Option<nat>) | Crashed

  datatype Proxy = Proxy(ino: nat, phase: Phase)

  /** The proxies in the order in which they bound. */
  datatype State = State(path: Option<nat>, proxies: seq<Proxy>)

  datatype Label = Bind(ino: nat) | BindFails(removed: bool) | Capture(p: nat) | Exit(p: nat) | Crash(p: nat)

  predicate Open(x: Proxy) { x.phase.Binding? || x.phase.Serving? }

  /** An inode is not reused while the socket it was given to is open. */
  predicate Enabled(s: State, l: Label) {
    match l
    case Bind(ino) => forall x :: x in s.proxies && Open(x) ==> x.ino != ino
    case BindFails(removed) => removed ==> s.path.Some?
    case Capture(p) => p < |s.proxies| && s.proxies[p].phase.Binding?
    case Exit(p) => p < |s.proxies| && s.proxies[p].phase.Serving?
    case Crash(p) => p < |s.proxies| && Open(s.proxies[p])
  }

  function WithPhase(s: State, p: nat, phase: Phase): State
    requires p < |s.proxies|
  {
    s.(proxies := s.proxies[p := s.proxies[p].(phase := phase)])
  }

  function Next(s: State, l: Label): State
    requires Enabled(s, l)
  {
    match l
    case Bind(ino) => State(Some(ino), s.proxies + [Proxy(ino, Binding)])
    case BindFails(removed) => if removed then s.(path := None) else s
    case Capture(p) => WithPhase(s, p, Serving(s.path))
    case Exit(p) =>
      var captured := s.proxies[p].phase.captured;
      WithPhase(s, p, Exited(captured)).(path := AfterCleanup(s.path, captured))
    case Crash(p) => WithPhase(s, p, Crashed)
  }

  ghost predicate Run(s: State, labels: seq<Label>, t: State)
    decreases |labels|
  {
    if labels == [] then s == t
    else Enabled(s, labels[0]) && Run(Next(s, labels[0]), labels[1..], t)
  }

  /** Whatever was at the path, no proxy has bound it yet. */
  function Init(path: Option<nat>): State { State(path, []) }

  predicate NoneBinds(labels: seq<Label>) {
    forall l :: l in labels ==> !l.Bind?
  }

  // ---- Exactly when the newest proxy loses the path -------------------------------------------

  /** A proxy that ended stays as it is. */
  lemma {:induction false} EndedStays(s: State, labels: seq<Label>, t: State, p: nat)
    requires Run(s, labels, t) && p < |s.proxies|
    ensures p < |t.proxies| && t.proxies[p].ino == s.proxies[p].ino
    ensures !Open(s.proxies[p]) ==> t.proxies[p] == s.proxies[p]
    decreases |labels|
  {
    if labels != [] {
      EndedStays(Next(s, labels[0]), labels[1..], t, p);
    }
  }

  /** One of the exits among the labels was of a proxy that had captured `ino`. */
  ghost predicate HolderExits(labels: seq<Label>, t: State, ino: nat) {
    exists p: nat ::
      && Exit(p) in labels
      && p < |t.proxies| && t.proxies[p].phase.Exited? && t.proxies[p].phase.captured == Some(ino)
  }

  lemma HolderExitsCons(l: Label, rest: seq<Label>, t: State, ino: nat)
    ensures HolderExits([l] + rest, t, ino) <==> HolderExits([l], t, ino) || HolderExits(rest, t, ino)
  {
    forall p ensures Exit(p) in [l] + rest <==> Exit(p) in [l] || Exit(p) in rest {
    }
  }

  /** While nobody binds, the path keeps the inode until a cleanup that captured that very
      inode, or a failed takeover, empties it; then it stays empty. */
  lemma {:induction false} PathWhileNoneBinds(s: State, ino: nat, labels: seq<Label>, t: State)
    requires s.path in {Some(ino), None} && NoneBinds(labels) && Run(s, labels, t)
    ensures t.path in {Some(ino), None}
    ensures t.path == None <==> s.path == None || BindFails(true) in labels || HolderExits(labels, t, ino)
    decreases |labels|
  {
    if labels != [] {
      var l, u := labels[0], Next(s, labels[0]);
      assert labels == [l] + labels[1..];
      PathWhileNoneBinds(u, ino, labels[1..], t);
      HolderExitsCons(l, labels[1..], t, ino);
      assert BindFails(true) in labels <==> l == BindFails(true) || BindFails(true) in labels[1..];
      if l.Exit? {
        EndedStays(u, labels[1..], t, l.p);
        assert HolderExits([l], t, ino) <==> s.proxies[l.p].phase.captured == Some(ino) by {
          assert Exit(l.p) in [l];
        }
      } else {
        assert !HolderExits([l], t, ino);
      }
    }
  }

  // ---- When every lookup is prompt ------------------------------------------------------------

  /** Every inode lookup comes before the next proxy binds. */
  ghost predicate Prompt(s: State, labels: seq<Label>)
    decreases |labels|
  {
    labels == []
    || (Enabled(s, labels[0]) ==>
          && (labels[0].Capture? ==> labels[0].p == |s.proxies| - 1)
          && Prompt(Next(s, labels[0]), labels[1..]))
  }

  /** A proxy's inode differs from that of every later one while its socket is open; what it
      captured is its own inode or nothing; the path is the newest's or empty, and empty
      once the newest exited or if it captured nothing. */
  ghost predicate OwnInodes(s: State) {
    && (forall p, q :: 0 <= p < q < |s.proxies| && Open(s.proxies[p]) ==> s.proxies[p].ino != s.proxies[q].ino)
    && (forall p :: 0 <= p < |s.proxies| && (s.proxies[p].phase.Serving? || s.proxies[p].phase.Exited?) ==>
          s.proxies[p].phase.captured in {Some(s.proxies[p].ino), None})
    && (|s.proxies| > 0 ==>
          var newest := s.proxies[|s.proxies| - 1];
          && s.path in {Some(newest.ino), None}
          && (newest.phase.Exited? || newest.phase == Serving(None) ==> s.path == None))
  }

  lemma StepKeepsOwnInodes(s: State, l: Label)
    requires OwnInodes(s) && Enabled(s, l) && (l.Capture? ==> l.p == |s.proxies| - 1)
    ensures OwnInodes(Next(s, l))
  {
  }

  lemma {:induction false} RunKeepsOwnInodes(s: State, labels: seq<Label>, t: State)
    requires OwnInodes(s) && Run(s, labels, t) && Prompt(s, labels)
    ensures OwnInodes(t)
    decreases |labels|
  {
    if labels != [] {
      StepKeepsOwnInodes(s, labels[0]);
      RunKeepsOwnInodes(Next(s, labels[0]), labels[1..], t);
    }
  }

  /** A proxy that exits while nobody binds was open before and has exited after. */
  lemma {:induction false} ExitWas(s: State, labels: seq<Label>, t: State, p: nat)
    requires Run(s, labels, t) && NoneBinds(labels) && Exit(p) in labels
    ensures p < |s.proxies| == |t.proxies| && Open(s.proxies[p]) && t.proxies[p].phase.Exited?
    decreases |labels|
  {
    var u := Next(s, labels[0]);
    assert forall l :: l in labels[1..] ==> l in labels;
    SameProxies(u, labels[1..], t);
    if labels[0] == Exit(p) {
      EndedStays(u, labels[1..], t, p);
    } else {
      ExitWas(u, labels[1..], t, p);
    }
  }

  lemma {:induction false} SameProxies(s: State, labels: seq<Label>, t: State)
    requires Run(s, labels, t) && NoneBinds(labels)
    ensures |s.proxies| == |t.proxies|
    ensures forall p :: 0 <= p < |s.proxies| ==> s.proxies[p].ino == t.proxies[p].ino
    decreases |labels|
  {
    if labels != [] {
      assert forall l :: l in labels[1..] ==> l in labels;
      SameProxies(Next(s, labels[0]), labels[1..], t);
    }
  }

  /** The newest proxy keeps the socket: with prompt lookups, from its bind until the next
      one the path holds its inode unless it exited cleanly or a later takeover removed it
      and could not bind. No cleanup of an older proxy ever removes it. */
  lemma NewestKeepsTheSocket(path: Option<nat>, history: seq<Label>, s: State, ino: nat, labels: seq<Label>, t: State)
    requires Run(Init(path), history, s) && Prompt(Init(path), history)
    requires Enabled(s, Bind(ino)) && Run(Next(s, Bind(ino)), labels, t) && Prompt(Next(s, Bind(ino)), labels)
    requires NoneBinds(labels)
    ensures t.path in {Some(ino), None}
    ensures t.path == None <==> BindFails(true) in labels || Exit(|s.proxies|) in labels
  {
    hide Run, Prompt;
    var u, n := Next(s, Bind(ino)), |s.proxies|;
    RunKeepsOwnInodes(Init(path), history, s);
    StepKeepsOwnInodes(s, Bind(ino));
    RunKeepsOwnInodes(u, labels, t);
    SameProxies(u, labels, t);
    PathWhileNoneBinds(u, ino, labels, t);
    if Exit(n) in labels {
      ExitWas(u, labels, t, n);
    }
    if HolderExits(labels, t, ino) {
      var p: nat :| Exit(p) in labels && p < |t.proxies| && t.proxies[p].phase.Exited?
               && t.proxies[p].phase.captured == Some(ino);
      ExitWas(u, labels, t, p);
      assert p == n;
    }
  }

  /** Binding and looking the inode up are two calls. When a second proxy takes over between
      them, the first captures the second's inode, and its clean exit removes the socket
      of a proxy that goes on serving. */
  lemma LateLookupLosesTheSocket() returns (labels: seq<Label>, t: State)
    ensures Run(Init(None), labels, t) && !Prompt(Init(None), labels) && BindFails(true) !in labels
    ensures t.path == None && |t.proxies| == 2 && t.proxies[1] == Proxy(2, Serving(Some(2)))
  {
    var s0 := Init(None);
    var s1 := Next(s0, Bind(1));
    var s2 := Next(s1, Bind(2));
    var s3 := Next(s2, Capture(0));
    var s4 := Next(s3, Capture(1));
    t := Next(s4, Exit(0));
    labels := [Bind(1), Bind(2), Capture(0), Capture(1), Exit(0)];
    assert labels[1..] == [Bind(2), Capture(0), Capture(1), Exit(0)];
    assert labels[1..][1..] == [Capture(0), Capture(1), Exit(0)];
    assert labels[1..][1..][1..] == [Capture(1), Exit(0)];
    assert labels[1..][1..][1..][1..] == [Exit(0)];
    assert labels[1..][1..][1..][1..][1..] == [];
    assert Run(s4, [Exit(0)], t);
    assert Run(s3, [Capture(1), Exit(0)], t);
    assert Run(s2, [Capture(0), Capture(1), Exit(0)], t);
    assert Run(s1, labels[1..], t);
    assert !Prompt(s2, labels[1..][1..]);
    assert !Prompt(s1, labels[1..]);
  }
}
