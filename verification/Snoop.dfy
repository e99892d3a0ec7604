/** The snoop's session state machine: which documents are open at which version, and
    which client messages give a position to query goals for. */
module Snoop {
  import opened Prelude
  import opened Wire
  import opened Json
  import Envelope

  datatype Focus = Focus(doc: DocRef, position: Position)

  /** Whether `initialized` was seen, and the open documents with their versions. */
  datatype Session = Session(initialized: bool, docs: map<string, int>)

  const FRESH_SESSION := Session(false, map[])

  const INITIALIZE := "initialize"
  const INITIALIZED := "initialized"
  const DID_OPEN := "textDocument/didOpen"
  const DID_CLOSE := "textDocument/didClose"
  const DID_CHANGE := "textDocument/didChange"

  // ---- What a single message says -------------------------------------------------

  function Method(message: Option<Json>): Option<string> { AsStr(Field(message, "method")) }

  function DocumentOf(message: Option<Json>): Option<Json> {
    Field(Field(message, "params"), "textDocument")
  }

  function UriOf(message: Option<Json>): Option<string> { AsStr(Field(DocumentOf(message), "uri")) }

  function VersionOf(message: Option<Json>): Option<int> {
    match AsI64(Field(DocumentOf(message), "version"))
    case Some(v) => Some(NarrowI32(v))
    case None => None
  }

  predicate IsInitialized(message: Option<Json>) { Method(message) == Some(INITIALIZED) }

  /** What happens to a document: a new version, or (None) it is closed. */
  datatype DocEvent = DocEvent(uri: string, version: Option<int>)

  /** An open document without a version has version 0; a change without one says
      nothing about the document. */
  function DocEventOf(message: Option<Json>): Option<DocEvent> {
    match (Method(message), UriOf(message))
    case (Some(m), Some(uri)) =>
      if m == DID_OPEN then
        Some(DocEvent(uri, Some(if VersionOf(message).Some? then VersionOf(message).value else 0)))
      else if m == DID_CLOSE then Some(DocEvent(uri, None))
      else if m == DID_CHANGE && VersionOf(message).Some? then Some(DocEvent(uri, VersionOf(message)))
      else None
    case _ => None
  }

  /** The start of the range of the last edit. */
  function EditCursor(message: Option<Json>): Option<Position> {
    match AsArr(Field(Field(message, "params"), "contentChanges"))
    case Some(changes) =>
      if changes == [] then None
      else ParsePosition(Field(Field(Some(changes[|changes| - 1]), "range"), "start"))
    case None => None
  }

  predicate IsSessionMethod(m: string) { m in {INITIALIZE, INITIALIZED, DID_OPEN, DID_CLOSE, DID_CHANGE} }

  /** The position a message points at: a ranged edit's, or that of a request in the
      trigger set. */
  function Target(triggers: seq<string>, message: Option<Json>): Option<(string, Position)> {
    match (Method(message), UriOf(message))
    case (Some(m), Some(uri)) =>
      var position :=
        if m == DID_CHANGE then EditCursor(message)
        else if !IsSessionMethod(m) && m in triggers then ParsePosition(Field(Field(message, "params"), "position"))
        else None;
      (match position case Some(p) => Some((uri, p)) case None => None)
    case _ => None
  }

  /** The workspace root an `initialize` announces: the root URI, else the first workspace
      folder's, else the legacy root path, each only if it is a string. */
  function RootUri(params: Option<Json>): Option<string> {
    var folders := AsArr(Field(params, "workspaceFolders"));
    var first := if folders.Some? && folders.value != [] then AsStr(Field(Some(folders.value[0]), "uri")) else None;
    if AsStr(Field(params, "rootUri")).Some? then AsStr(Field(params, "rootUri"))
    else if first.Some? then first
    else AsStr(Field(params, "rootPath"))
  }

  // ---- The state machine -----------------------------------------------------------

  function After(s: Session, message: Option<Json>): Session {
    var t := s.(initialized := s.initialized || IsInitialized(message));
    match DocEventOf(message)
    case Some(DocEvent(uri, Some(v))) => t.(docs := t.docs[uri := v])
    case Some(DocEvent(uri, None)) => t.(docs := t.docs - {uri})
    case None => t
  }

  /** Only in an initialized session and for a document in the table. */
  function LegalFocus(s: Session, uri: string, position: Position): Option<Focus> {
    if s.initialized && uri in s.docs then Some(Focus(DocRef(uri, s.docs[uri]), position)) else None
  }

  /** The focus a message yields in the session it leads to. */
  function FocusOf(triggers: seq<string>, s: Session, message: Option<Json>): Option<Focus> {
    match Target(triggers, message)
    case Some((uri, position)) => LegalFocus(After(s, message), uri, position)
    case None => None
  }

  // ---- What messages do, field by field ---------------------------------------------

  /** The message has this method and this document. */
  predicate Concerning(message: Option<Json>, m: string, uri: string) {
    && Field(message, "method") == Some(Str(m))
    && Field(Field(Field(message, "params"), "textDocument"), "uri") == Some(Str(uri))
  }

  /** The message carries `n` as its document's version. */
  predicate Versioned(message: Option<Json>, n: int) {
    && Field(Field(Field(message, "params"), "textDocument"), "version") == Some(Num(n))
    && -0x8000_0000_0000_0000 <= n <= 0x7fff_ffff_ffff_ffff
  }

  /** Exactly which messages are events of a document: an open with its version narrowed, or
      0 without one; a change that carries a version; and a close. */
  lemma DocEventsExactly(message: Option<Json>, uri: string, v: int)
    ensures DocEventOf(message) == Some(DocEvent(uri, None)) <==> Concerning(message, "textDocument/didClose", uri)
    ensures DocEventOf(message) == Some(DocEvent(uri, Some(v))) <==>
      || ((Concerning(message, "textDocument/didOpen", uri) || Concerning(message, "textDocument/didChange", uri))
          && exists n :: Versioned(message, n) && NarrowI32(n) == v)
      || (Concerning(message, "textDocument/didOpen", uri) && v == 0 && forall n :: !Versioned(message, n))
  {
    var n := AsI64(Field(DocumentOf(message), "version"));
    assert n.Some? ==> Versioned(message, n.value);
    assert forall k :: Versioned(message, k) ==> n == Some(k);
  }

  /** What a message does to the session. A close takes its document off the table; an open
      puts it there, and so does a change with a version; no other message touches the
      table. Only `initialized` initializes. */
  lemma SessionExactly(s: Session, message: Option<Json>, uri: string, n: int)
    ensures
      var docs := After(s, message).docs;
      && (Concerning(message, "textDocument/didClose", uri) ==> docs == s.docs - {uri})
      && (Versioned(message, n) && (Concerning(message, "textDocument/didOpen", uri)
                                    || Concerning(message, "textDocument/didChange", uri)) ==>
            docs == s.docs[uri := NarrowI32(n)])
      && ((forall k :: !Versioned(message, k)) && Concerning(message, "textDocument/didOpen", uri) ==>
            docs == s.docs[uri := 0])
      && ((forall k :: !Versioned(message, k)) && Concerning(message, "textDocument/didChange", uri) ==>
            docs == s.docs)
      && ((forall u ::
             && !Concerning(message, "textDocument/didOpen", u)
             && !Concerning(message, "textDocument/didClose", u)
             && !Concerning(message, "textDocument/didChange", u)) ==>
            docs == s.docs)
    ensures After(s, message).initialized <==> s.initialized || Field(message, "method") == Some(Str("initialized"))
  {
    var k := AsI64(Field(DocumentOf(message), "version"));
    assert k.Some? ==> Versioned(message, k.value);
    assert forall j :: Versioned(message, j) ==> k == Some(j);
    if DocEventOf(message).Some? {
      var u := DocEventOf(message).value.uri;
      assert Concerning(message, "textDocument/didOpen", u) || Concerning(message, "textDocument/didClose", u)
        || Concerning(message, "textDocument/didChange", u);
    }
  }

  /** The start of the range of the last of the message's edits is `p`. */
  predicate LastEditAt(message: Option<Json>, p: Position) {
    match Field(Field(message, "params"), "contentChanges")
    case Some(Arr(changes)) =>
      changes != [] && AtPosition(Field(Field(Some(changes[|changes| - 1]), "range"), "start"), p)
    case _ => false
  }

  /** Exactly which messages point at a position: a change whose last edit has a range, and a
      request of the trigger set, other than the session's own methods, with a position. */
  lemma TargetExactly(triggers: seq<string>, message: Option<Json>, uri: string, p: Position)
    ensures Target(triggers, message) == Some((uri, p)) <==>
      || (Concerning(message, "textDocument/didChange", uri) && LastEditAt(message, p))
      || (exists m :: m in triggers && Concerning(message, m, uri)
            && m !in ["initialize", "initialized", "textDocument/didOpen", "textDocument/didClose",
                      "textDocument/didChange"]
            && AtPosition(Field(Field(message, "params"), "position"), p))
  {
    var changes := AsArr(Field(Field(message, "params"), "contentChanges"));
    if changes.Some? && changes.value != [] {
      PositionsExactly(Field(Field(Some(changes.value[|changes.value| - 1]), "range"), "start"), p);
    }
    PositionsExactly(Field(Field(message, "params"), "position"), p);
    hide ParsePosition, AtPosition;
    var m := Method(message);
    if m.Some? && UriOf(message).Some? {
      assert Concerning(message, m.value, UriOf(message).value);
    }
  }

  /** Once a document is closed, no message about it yields a focus until it is opened or
      given a version again. */
  lemma ClosedYieldsNoFocus(triggers: seq<string>, s: Session, close: Option<Json>, uri: string,
                            message: Option<Json>, m: string)
    requires Concerning(close, "textDocument/didClose", uri) && Concerning(message, m, uri)
    requires m != "textDocument/didOpen" && (m == "textDocument/didChange" ==> forall n :: !Versioned(message, n))
    ensures FocusOf(triggers, After(s, close), message) == None
  {
    hide Target, Concerning, Versioned;
    SessionExactly(s, close, uri, 0);
    StaysClosed(After(s, close), uri, message, m);
    TargetIsConcerned(triggers, message, m, uri);
  }

  lemma StaysClosed(s: Session, uri: string, message: Option<Json>, m: string)
    requires Concerning(message, m, uri) && uri !in s.docs
    requires m != "textDocument/didOpen" && (m == "textDocument/didChange" ==> forall n :: !Versioned(message, n))
    ensures uri !in After(s, message).docs
  {
    var n := AsI64(Field(DocumentOf(message), "version"));
    assert n.Some? ==> Versioned(message, n.value);
  }

  lemma TargetIsConcerned(triggers: seq<string>, message: Option<Json>, m: string, uri: string)
    requires Concerning(message, m, uri)
    ensures Target(triggers, message).Some? ==> Target(triggers, message).value.0 == uri
  {
  }

  /** Which workspace root is announced, in order of preference. */
  lemma RootsExactly(params: Option<Json>, root: string)
    ensures
      var first :=
        match Field(params, "workspaceFolders")
        case Some(Arr(folders)) => if folders == [] then None else Field(Some(folders[0]), "uri")
        case _ => None;
      var uri, path := Field(params, "rootUri"), Field(params, "rootPath");
      RootUri(params) == Some(root) <==>
        || uri == Some(Str(root))
        || (AsStr(uri).None? && first == Some(Str(root)))
        || (AsStr(uri).None? && AsStr(first).None? && path == Some(Str(root)))
  {
  }

  datatype Observation = Observation(
    meth: Option<string>,
    uri: Option<string>,
    position: Option<Position>,
    version: Option<int>,
    rootUri: Option<string>,
    isTrigger: bool,
    focus: Option<Focus>)

  class Snoop {
    var initialized: bool
    var docs: map<string, int>
    const triggers: seq<string>

    function View(): Session
      reads this
    {
      Session(initialized, docs)
    }

    constructor (triggers: seq<string>)
      ensures View() == FRESH_SESSION && this.triggers == triggers
    {
      this.initialized, this.docs, this.triggers := false, map[], triggers;
    }

    /** Whether a method is in the trigger set. */
    method IsTrigger(m: string) returns (found: bool)
      ensures found <==> m in triggers
    {
      for i := 0 to |triggers|
        invariant m !in triggers[..i]
      {
        if triggers[i] == m {
          return true;
        }
      }
      return false;
    }

    static method ExtractRootUri(params: Option<Json>) returns (root: Option<string>)
      ensures root == RootUri(params)
    {
      root := AsStr(Field(params, "rootUri"));
      if root.Some? {
        return;
      }
      var folders := AsArr(Field(params, "workspaceFolders"));
      if folders.Some? && |folders.value| > 0 {
        root := AsStr(Field(Some(folders.value[0]), "uri"));
        if root.Some? {
          return;
        }
      }
      root := AsStr(Field(params, "rootPath"));
    }

    /** Update the session from one client message and report what it carried. */
    method Observe(message: Option<Json>) returns (obs: Observation)
      modifies this
      ensures View() == After(old(View()), message)
      ensures obs.focus == FocusOf(triggers, old(View()), message)
      ensures obs.meth == Method(message)
      ensures obs.rootUri == if obs.meth == Some(INITIALIZE) then RootUri(Field(message, "params")) else None
      ensures obs.isTrigger <==> obs.meth.Some? && obs.meth.value in triggers
      ensures obs.version == if DocEventOf(message).Some? then DocEventOf(message).value.version else None
      ensures obs.position == if Target(triggers, message).Some? then Some(Target(triggers, message).value.1) else None
      ensures obs.uri ==
        if Target(triggers, message).Some? || obs.meth in {Some(DID_OPEN), Some(DID_CLOSE), Some(DID_CHANGE)}
        then UriOf(message)
        else None
    {
      var meth := AsStr(Field(message, "method"));
      obs := Observation(meth, None, None, None, None, false, None);
      if meth.None? {
        return;
      }
      var m := meth.value;
      var isTrigger := IsTrigger(m);
      obs := obs.(isTrigger := isTrigger);
      var params := Field(message, "params");
      if m == INITIALIZE {
        var root := ExtractRootUri(params);
        obs := obs.(rootUri := root);
      } else if m == INITIALIZED {
        initialized := true;
      } else if m == DID_OPEN {
        var document := Field(params, "textDocument");
        var uri := AsStr(Field(document, "uri"));
        if uri.Some? {
          var raw := AsI64(Field(document, "version"));
          var version := NarrowI32(if raw.Some? then raw.value else 0);
          docs := docs[uri.value := version];
          obs := obs.(uri := uri, version := Some(version));
        }
      } else if m == DID_CLOSE {
        var uri := AsStr(Field(Field(params, "textDocument"), "uri"));
        if uri.Some? {
          docs := docs - {uri.value};
          obs := obs.(uri := uri);
        }
      } else if m == DID_CHANGE {
        var uri := AsStr(Field(Field(params, "textDocument"), "uri"));
        if uri.Some? {
          var raw := AsI64(Field(Field(params, "textDocument"), "version"));
          if raw.Some? {
            docs := docs[uri.value := NarrowI32(raw.value)];
            obs := obs.(version := Some(NarrowI32(raw.value)));
          }
          var cursor := EditCursor(message);
          obs := obs.(uri := uri, position := cursor);
          if cursor.Some? {
            obs := obs.(focus := LegalFocus(View(), uri.value, cursor.value));
          }
        }
      } else if isTrigger {
        var uri := AsStr(Field(Field(params, "textDocument"), "uri"));
        var position := ParsePosition(Field(params, "position"));
        if uri.Some? && position.Some? {
          obs := obs.(uri := uri, position := position, focus := LegalFocus(View(), uri.value, position.value));
        }
      }
    }
  }

  // ---- The document table as a view of the history -----------------------------------

  /** The session after a whole history of messages. */
  function Replay(history: seq<Option<Json>>): Session {
    if history == [] then FRESH_SESSION
    else After(Replay(history[..|history| - 1]), history[|history| - 1])
  }

  lemma ReplaySnoc(history: seq<Option<Json>>, message: Option<Json>)
    ensures Replay(history + [message]) == After(Replay(history), message)
  {
    assert (history + [message])[..|history|] == history;
  }

  /** The `i`-th message is the latest one that opens, closes or versions `uri`. */
  predicate LatestEvent(history: seq<Option<Json>>, uri: string, i: int) {
    && 0 <= i < |history|
    && Concerns(history[i], uri)
    && forall j :: i < j < |history| ==> !Concerns(history[j], uri)
  }

  predicate Concerns(message: Option<Json>, uri: string) {
    DocEventOf(message).Some? && DocEventOf(message).value.uri == uri
  }

  /** A document is in the table with version `v` exactly when its latest event is not a
      close and carries `v`. */
  lemma {:induction false} TableRefinesHistory(history: seq<Option<Json>>, uri: string, v: int)
    ensures (uri in Replay(history).docs && Replay(history).docs[uri] == v) <==>
      exists i :: LatestEvent(history, uri, i) && DocEventOf(history[i]).value.version == Some(v)
  {
    hide DocEventOf, IsInitialized;
    if history != [] {
      var init, last := history[..|history| - 1], history[|history| - 1];
      TableRefinesHistory(init, uri, v);
      assert Replay(history) == After(Replay(init), last);
      assert forall i :: 0 <= i < |init| ==> history[i] == init[i];
      if Concerns(last, uri) {
        assert LatestEvent(history, uri, |init|);
        assert forall i :: LatestEvent(history, uri, i) ==> i == |init|;
      } else {
        assert forall i :: LatestEvent(history, uri, i) <==> LatestEvent(init, uri, i);
      }
    }
  }

  lemma {:induction false} InitializedRefinesHistory(history: seq<Option<Json>>)
    ensures Replay(history).initialized <==> exists i :: 0 <= i < |history| && IsInitialized(history[i])
  {
    if history != [] {
      var init := history[..|history| - 1];
      InitializedRefinesHistory(init);
      assert forall i :: 0 <= i < |init| ==> history[i] == init[i];
    }
  }

  /** The focus the last message of a history yields. */
  function LastFocus(triggers: seq<string>, history: seq<Option<Json>>): Option<Focus>
    requires history != []
  {
    FocusOf(triggers, Replay(history[..|history| - 1]), history[|history| - 1])
  }

  /** A message yields a focus exactly when `initialized` came before it, its document's
      latest event leaves it open, and it points at a position; the focus carries that
      document, that version and that position. */
  lemma FocusRefinesHistory(triggers: seq<string>, history: seq<Option<Json>>, f: Focus)
    requires history != []
    ensures LastFocus(triggers, history) == Some(f) <==>
      && (exists i :: 0 <= i < |history| && IsInitialized(history[i]))
      && (exists i :: LatestEvent(history, f.doc.uri, i)
            && DocEventOf(history[i]).value.version == Some(f.doc.version))
      && Target(triggers, history[|history| - 1]) == Some((f.doc.uri, f.position))
  {
    InitializedRefinesHistory(history);
    TableRefinesHistory(history, f.doc.uri, f.doc.version);
  }
}
