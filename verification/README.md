# Verification of the lean-helix-view proxy

This project models the proxy that sits between the Helix editor and a Lean language
server, and proves what its design promises. The proxy forwards Language Server Protocol
frames in both directions, watches the client's messages for a cursor position, injects
goal queries of its own into the stream to Lean, takes exactly the answers to those queries
out of the stream back, and publishes the result to any number of viewers over a socket.

## How the model is built

* **The wire** (`Codec`, `CodecProofs`, `HeaderText`, `Utf8`, `Utf8Proofs`, `Numerals`).
  Frames are sequences of bytes. The reader is modelled byte by byte, with its leniencies: any run of CR and LF ends a
  line, a line that trims to nothing ends the header, names are trimmed and compared without
  case, the last `Content-Length` counts, a length may start with a plus sign, and a last
  line without a line feed is still processed. The loops are methods proved against
  `Codec.Read`; the promises are lemmas about `Read` and `ReadAll`.
* **The forwarder** (`Forward`). Two pumps, the snoop task with its querier, the two sink
  writers and the control path are one state machine. The runtime is single-threaded, so
  what a task does between two waits is one step, and any task that can step may step next.
  `Run` ranges over every such interleaving. Lean is an environment that answers each
  request handed to it at most once (`MaySay`); anything else it may say is unrestricted.
* **The tasks** (`Query`, `Snoop`, `Channel`, `StateStore`, `Tee`, `Debounce`,
  `ForwardTasks`). The objects whose fields the program updates are classes. Each method of
  `ForwardTasks.Forwarder` takes the shared objects through exactly one step of `Forward`,
  so that a valid object is always in a state some run reaches.
* **Whole runs** (`Pipes`, `NoLeak`, `Views`, `ClientIds`, `Causality`,
  `EndToEnd`, `Shutdown`). The main results.
* **The satellites** (`Publish`, `Takeover`, `SocketKey`, `Highlight`). Publication to
  viewers, takeover of the socket path, the socket's name, and the viewer's highlighter.

A frame in the protocol part carries its bytes together with the JSON value its body decodes
to, if any. Ghost histories record what was read, queued, written, consumed and applied.
Queries carry, as bookkeeping, the places in the queue of the client frames that led to them.

## Where the code differs from what is said about it

* A cut-off frame is documented to be an error. There is one exception, proved to be the
  only one for canonical frames: a frame without a body that lacks just its last line feed
  (`CodecProofs.TruncationDetected`).
* Ids of queries are distinct until the 64-bit generation counter wraps
  (`Query.InjectedIdsCollideOnWrap`). Statements that count or compare
  ids are for runs with fewer than 2^64 generations; that only answers to injected ids are
  consumed, and everything else is passed on, holds in every run.
* A stray client id is said to be safe from misrouting. A client that uses the id of an
  outstanding query has its own answer withheld (`ClientIds.ClientAnswerWithheld`);
  `NoLeak.WithheldIffOutstanding` says for all runs exactly when an answer is.
* The previous owner's cleanup is documented never to delete a newer proxy's socket. Binding
  and looking the inode up are two calls; when another proxy binds between them the claim
  fails (`Takeover.LateLookupLosesTheSocket`). It holds when every lookup is prompt
  (`Takeover.NewestKeepsTheSocket`), and `Takeover.PathWhileNoneBinds` says for all runs
  exactly when the path is lost.
* The highlighter trims carriage returns at the end of every piece, not of every line, so it
  can drop one that the plain rendering keeps (`Highlight.SplitReturnIsLost`);
  `Highlight.SameLinesAsPlain` and `Highlight.DrawingKeepsText` say exactly when it does not.
* Until both answers of a generation have arrived, the snapshot may mix two generations. What
  is proved is that the tags never go back and that a settled generation is shown whole.

## Model

| member | source | states |
|---|---|---|
| CodecProofs.FromBodyIsCanonical | crates/lhv-lsp/src/codec.rs:24-31 | a frame made from a body is one header line with its decimal length, a blank line, and that body |
| Codec.Reader.ReadLine | crates/lhv-lsp/src/codec.rs:67 | a line read consumes up to and including the first line feed, or everything left |
| Codec.Reader.ReadExact | crates/lhv-lsp/src/codec.rs:103-104 | exactly the announced bytes are consumed, or the stream ended first |
| Codec.ReadHeader | crates/lhv-lsp/src/codec.rs:61-98 | the header loop computes the scan of the input, keeps every byte it consumed, and reports end of input only there |
| Codec.LineLength | crates/lhv-lsp/src/codec.rs:67 | a line ends at the first line feed and nowhere before it, or is all that is left |
| CodecProofs.ReadDecides | crates/lhv-lsp/src/codec.rs:57-107 | every outcome, in terms of the lines of the input: which error, a clean end, or a frame of exactly how many bytes |
| Codec.ReadFrame | crates/lhv-lsp/src/codec.rs:57-107 | the reader's outcome is that of `Read`, every error and the panic on a length no vector can hold included, and a frame is cut off the front verbatim |
| CodecProofs.ParsePrintedLength | crates/lhv-lsp/src/codec.rs:86-88 | a printed length is parsed back exactly when it fits 64 bits |
| CodecProofs.ReadFromBody | crates/lhv-lsp/src/codec.rs:24-107 | a canonical frame is read back, whatever its body and whatever follows, exactly when a vector can hold it; and what happens otherwise |
| CodecProofs.StreamRoundTrip | crates/lhv-lsp/src/codec.rs:24-107 | reading any framed list of bodies gives exactly those frames, then a clean end |
| CodecProofs.TruncationDetected | crates/lhv-lsp/src/codec.rs:65-104 | a strict prefix of a canonical frame is an error, except a bodiless frame lacking only its last line feed, and never a clean end |
| CodecProofs.HeaderIsLocal | crates/lhv-lsp/src/codec.rs:61-98 | the header scan depends on nothing after the block, unless the block ends the stream unterminated |
| CodecProofs.FrameIsLocal | crates/lhv-lsp/src/codec.rs:57-107 | a frame cut out of one stream is read back in front of any other |
| CodecProofs.SegmentationIsVerbatim | crates/lhv-lsp/src/codec.rs:57-107 | for any bytes, the frames' bytes put together are the input up to where reading stopped, all of it exactly at a clean end |
| CodecProofs.ReparseGivesSameFrames | crates/lhv-lsp/src/codec.rs:57-118 | writing the frames of any stream out and reading that gives the same frames and a clean end |
| CodecProofs.BodyLengthIsLastLength | crates/lhv-lsp/src/codec.rs:80-103 | every frame's header is well-formed lines ended by the only blank one, and its body has the last announced length |
| HeaderText.ColonLinesExactly | crates/lhv-lsp/src/codec.rs:80-91 | what a line with a colon is, from its text: a length, a bad length, or a tolerated header, for any casing of the name and blanks anywhere |
| HeaderText.PlainLinesExactly | crates/lhv-lsp/src/codec.rs:80-97 | a line without a colon ends the header if blank and is malformed otherwise |
| HeaderText.EveryLineIsEither | crates/lhv-lsp/src/codec.rs:80-97 | every line is of one of these two forms |
| HeaderText.BytesExactly | crates/lhv-lsp/src/codec.rs:67-68 | a line's bytes are classified by the text they encode, and are an error if they encode none |
| HeaderText.TrimExactly | crates/lhv-lsp/src/codec.rs:85-86 | trimming removes the blanks at both ends and nothing else |
| HeaderText.BlanksExactly | crates/lhv-lsp/src/codec.rs:85-86 | the blanks, code point by code point |
| HeaderText.NamesExactly | crates/lhv-lsp/src/codec.rs:85 | a name is `Content-Length` exactly when it equals it but for the case of letters |
| HeaderText.LengthsExactly | crates/lhv-lsp/src/codec.rs:86 | a value is a length exactly when it is an optional plus sign and figures that are worth less than 2^64 |
| HeaderText.ExtraHeadersTolerated | crates/lhv-lsp/src/codec.rs:57-107 | any extra headers, in any order, around a length line of any casing and spacing leave the frame as it stands, its body as long as the length says |
| Utf8Proofs.DecodesExactly | crates/lhv-lsp/src/codec.rs:67 | bytes decode to a text exactly when they are its encoding as RFC 3629 defines it |
| Envelope.StringIdsExactly | crates/lhv-lsp/src/envelope.rs:25-61 | exactly which bodies answer a string id and which ask under one |
| Envelope.MethodsExactly | crates/lhv-lsp/src/envelope.rs:25-45 | exactly which method and which numeric id a body has |
| Json.PositionsExactly | crates/lhv-proxy/src/json.rs:10-15 | exactly which values are which positions, the casts to 32 bits included |
| Json.RangesExactly | crates/lhv-proxy/src/json.rs:17-22 | exactly which values are which ranges |
| Json.NarrowExactly | crates/lhv-proxy/src/snoop.rs:120 | narrowing a version gives the one signed 32-bit integer that differs by a multiple of 2^32 |
| Envelope.KindsAreDisjoint | crates/lhv-lsp/src/envelope.rs:48-61 | the three kinds exclude each other and cover every message with an id or a method; no body both asks and answers |
| StateStore.StateHandle.Update | crates/lhv-proxy/src/state.rs:35-40 | an update extends the history by one and the snapshot is the fold of the history |
| StateStore.FoldShowsLastWrite | crates/lhv-proxy/src/state.rs:35-40 | every part of the snapshot holds the last value written to it and the counter counts all updates modulo 2^64 |
| StateStore.LastWriteInSelection | crates/lhv-proxy/src/state.rs:35-40 | goal parts are determined by the goal answers alone, diagnostics and progress by the teed notifications alone |
| Tee.ApplyDiagnostics | crates/lhv-proxy/src/tee.rs:14-31 | diagnostics are folded in exactly when there are params with a string uri |
| Tee.ApplyProgress | crates/lhv-proxy/src/tee.rs:35-54 | progress is folded in exactly when there are params |
| Tee.Apply | crates/lhv-proxy/src/forward.rs:147-164 | the copy folded in is the one the notification's method selects |
| Tee.FoldsExactly | crates/lhv-proxy/src/tee.rs:14-54 | exactly which bodies fold in what, by their literal method and params |
| Tee.ItemsInOrder | crates/lhv-proxy/src/tee.rs:22-48 | every item of a list counts in its place: it adds what it gives, or nothing |
| Tee.DiagnosticsExactly | crates/lhv-proxy/src/tee.rs:56-63 | what one item gives, field by field: range, message, severity by its number, optional source |
| Numerals.ValueOfDigits | crates/lhv-proxy/src/query.rs:116 | reading the digits printed for a number gives the number back |
| Numerals.DecimalExactly | crates/lhv-proxy/src/query.rs:116 | a number is printed in decimal figures worth it, without a leading zero |
| Query.InjectedIdInjective | crates/lhv-proxy/src/query.rs:116 | an id determines its generation and its kind |
| Query.InjectedIdsCollideOnWrap | crates/lhv-proxy/src/query.rs:73-116 | the ids of the m-th and n-th request coincide exactly when the counter wrapped between them and the kinds agree |
| Query.QueryBodyCarries | crates/lhv-proxy/src/query.rs:117-125 | a query's body names its own document and position, as a receiver parses them |
| Query.QueryBodyAsks | crates/lhv-proxy/src/query.rs:117-125 | a query is a request under its own id and is never mistaken for an answer |
| Query.QueryBodyExactly | crates/lhv-proxy/src/query.rs:116-125 | the whole body of each query, its method and id letter by letter |
| Query.RequestInjectsBoth | crates/lhv-proxy/src/query.rs:113-141 | with two slots free both queries are queued in order and registered, with one the goal query alone, with none nothing; the generation is new in every case |
| Query.Outstanding.NextGeneration | crates/lhv-proxy/src/query.rs:73-75 | opening a generation counts and returns the latest |
| Query.Outstanding.Register | crates/lhv-proxy/src/query.rs:82-84 | the id maps to its query, nothing else changes |
| Query.Outstanding.Take | crates/lhv-proxy/src/query.rs:86-88 | the id is gone afterwards and its query is returned if it was there |
| Query.Querier.Request | crates/lhv-proxy/src/query.rs:113-141 | a request opens a generation and, room permitting, queues and registers the goal query and then the term query for this document and position |
| Query.AnswerMeans | crates/lhv-proxy/src/query.rs:146-191 | a missing or null result clears the goals and says there is no tactic block; otherwise goals, rendering and term goal are those of the answer, shown only if of the right shape |
| Query.StringsInOrder | crates/lhv-proxy/src/query.rs:158-166 | the goals kept of a list are its strings, in order |
| Query.HandleInjectedResponse | crates/lhv-proxy/src/query.rs:146-191 | a decodable answer is folded in once, an undecodable one not at all |
| Snoop.Snoop.IsTrigger | crates/lhv-proxy/src/snoop.rs:186-188 | a method is a trigger exactly when it is in the set |
| Snoop.Snoop.Observe | crates/lhv-proxy/src/snoop.rs:104-184 | the new session, the focus and every other field of the observation, for every message |
| Snoop.Snoop.ExtractRootUri | crates/lhv-proxy/src/snoop.rs:209-224 | the root URI, else the first workspace folder, else the root path |
| Snoop.RootsExactly | crates/lhv-proxy/src/snoop.rs:209-224 | which root is announced, field by field, in order of preference |
| Snoop.SessionExactly | crates/lhv-proxy/src/snoop.rs:115-151 | what each message does to the session, by its literal method and fields: a close removes its document, an open and a versioned change put it there, nothing else touches the table |
| Snoop.DocEventsExactly | crates/lhv-proxy/src/snoop.rs:117-151 | exactly which messages open, version or close a document |
| Snoop.TargetExactly | crates/lhv-proxy/src/snoop.rs:152-181 | exactly which messages point at which position: the last edit of a change, or a trigger of the set |
| Snoop.ClosedYieldsNoFocus | crates/lhv-proxy/src/snoop.rs:129-204 | after a close no message about the document yields a focus until it is opened or versioned again |
| Snoop.TableRefinesHistory | crates/lhv-proxy/src/snoop.rs:117-151 | a document is in the table with a version exactly when its latest open, close or versioned change is not a close and carries that version |
| Snoop.InitializedRefinesHistory | crates/lhv-proxy/src/snoop.rs:116 | the session is initialized exactly when `initialized` was among the messages |
| Snoop.FocusRefinesHistory | crates/lhv-proxy/src/snoop.rs:104-204 | a message yields a focus exactly when `initialized` was seen, the document's latest event leaves it open at that version, and it points at that position |
| Debounce.EveryRunDebounces | crates/lhv-proxy/src/snoop.rs:257-283 | in every timed run a firing is for the last event processed, at least the quiet period after it; no event fires twice; firings are at least the quiet period apart |
| Debounce.WindowBound | crates/lhv-proxy/src/snoop.rs:257-283 | a window of length T holds at most T / debounce + 1 firings |
| Debounce.Debouncer.Process | crates/lhv-proxy/src/snoop.rs:271-274 | a processed message that yields a focus replaces the pending one and restarts the quiet period |
| Debounce.Debouncer.Poll | crates/lhv-proxy/src/snoop.rs:276-281 | the timer fires for the pending focus exactly once the quiet period is over |
| Debounce.DebouncerObeys | crates/lhv-proxy/src/snoop.rs:257-283 | whatever was called on the timer's object and when, its firings obey the quiet period |
| Channel.SinkQueue.TrySend | crates/lhv-proxy/src/query.rs:135-138 | a frame is queued exactly when the writer is not gone and a slot is free that is not promised to a waiting sender |
| Channel.SinkQueue.WriterTurn | crates/lhv-proxy/src/forward.rs:70-81 | each turn of the writer takes, completes, fails, drains or shuts as the state machine says |
| Channel.CleanCloseWroteEverything | crates/lhv-proxy/src/forward.rs:70-81 | a writer that stopped without a failed write has written everything ever accepted |
| ForwardTasks.Forwarder.constructor | crates/lhv-proxy/src/forward.rs:191-247 | the tasks start in the initial state, the querier sharing the client's queue to Lean |
| ForwardTasks.Forwarder.ClientRead | crates/lhv-proxy/src/forward.rs:91-93 | reading a client frame is one step of the system |
| ForwardTasks.Forwarder.ClientSend | crates/lhv-proxy/src/forward.rs:94-98 | the frame is queued and then copied to the snoop if it has room, or the pump ends, or it waits; nothing else |
| ForwardTasks.Forwarder.ClientStop | crates/lhv-proxy/src/forward.rs:100-107 | end of input or an unreadable stream ends the pump |
| ForwardTasks.Forwarder.Consume | crates/lhv-proxy/src/forward.rs:129-143 | a frame is consumed exactly when it answers a registered id; the id is discharged, and the answer folded in exactly in the latest generation |
| ForwardTasks.Forwarder.ServerRead | crates/lhv-proxy/src/forward.rs:125-145 | a frame from Lean is consumed or kept to be sent on, as one step |
| ForwardTasks.Forwarder.ServerSend | crates/lhv-proxy/src/forward.rs:155-164 | the frame is queued first, then its copy folded in; or the pump ends, or it waits |
| ForwardTasks.Forwarder.ServerStop | crates/lhv-proxy/src/forward.rs:166-173 | end of Lean's output ends the pump |
| ForwardTasks.Forwarder.SnoopMessage | crates/lhv-proxy/src/snoop.rs:259-275 | observing one copy is one step and restarts the quiet period exactly when it yields a focus |
| ForwardTasks.Forwarder.SnoopTimer | crates/lhv-proxy/src/snoop.rs:276-281 | the timer injects for the pending focus exactly when the quiet period is over |
| ForwardTasks.Forwarder.SnoopStop | crates/lhv-proxy/src/snoop.rs:260 | the snoop ends on an empty channel without a sender |
| ForwardTasks.Forwarder.LeanTurn | crates/lhv-proxy/src/forward.rs:70-81 | one turn of the writer to Lean, which stops only when the client pump and the snoop are both gone |
| ForwardTasks.Forwarder.HelixTurn | crates/lhv-proxy/src/forward.rs:70-81 | one turn of the writer to Helix |
| ForwardTasks.Forwarder.Close | crates/lhv-proxy/src/run.rs:91-116 | the first pump to end, or a signal, selects the path; a signal aborts the client pump at once |
| ForwardTasks.Forwarder.ChildGone | crates/lhv-proxy/src/run.rs:91-116 | after reaping, the path that the client closed joins the server pump, the others abort the client pump and drain |
| ForwardTasks.Forwarder.Joined | crates/lhv-proxy/src/forward.rs:273-283 | draining aborts the snoop, then waits for the two writers in turn |
| ForwardTasks.ForwarderIsTransparent | crates/lhv-proxy/src/forward.rs:70-176 | whatever was called on the object, its state is that of a run: two pipes, no leak, nothing else withheld |
| Pipes.StepRefinesPipes | crates/lhv-proxy/src/forward.rs:70-176 | every step of the forwarder is one step or none of each of two plain FIFO pipes |
| Pipes.OutputIsPrefix | crates/lhv-proxy/src/forward.rs:70-176 | what came out of either pipe is a prefix of what went in |
| Pipes.EveryRunRefinesPipes | crates/lhv-proxy/src/forward.rs:70-176 | in every run, what was written to Lean is, injected frames aside, a prefix of the client's frames, and what was written to Helix a prefix of Lean's frames, consumed ones aside |
| Pipes.ClientBytesAreVerbatim | crates/lhv-proxy/src/forward.rs:86-110 | the bytes of the client frames written are a prefix of the client's byte stream |
| Pipes.ServerBytesAreVerbatim | crates/lhv-proxy/src/forward.rs:114-176 | up to some point in Lean's frames, whose bytes are a prefix of Lean's byte stream, Helix was sent exactly the frames not consumed |
| Pipes.ClientNeverWaitsForSnoop | crates/lhv-proxy/src/forward.rs:92-98 | a waiting client frame gets into the queue by steps of the writer and its own pump alone |
| NoLeak.RegistryIsInFlight | crates/lhv-proxy/src/query.rs:113-141 | in every run the registry holds exactly the injected ids queued, lost with a dead writer, or handed to Lean and not yet consumed, each with its own query |
| NoLeak.NoAnswerLeaks | crates/lhv-proxy/src/forward.rs:129-143 | under any string id Helix is never sent more answers than it asked for; under an id it never used, such as an injected one, none at all |
| NoLeak.NothingElseWithheld | crates/lhv-proxy/src/forward.rs:125-158 | in every run each frame consumed answered a query injected under its string id, no two the same one; every other frame read was queued to Helix in its place, except at most the last, which the pump holds or lost as it ended |
| NoLeak.EverythingElsePassesOn | crates/lhv-proxy/src/forward.rs:125-158 | notifications, requests, answers under numeric ids and answers under ids never injected are never consumed and all passed on |
| NoLeak.WithheldIffOutstanding | crates/lhv-proxy/src/forward.rs:129-143 | a frame is withheld exactly when it answers an id that is registered as it is heard: one injected and not answered so far |
| ClientIds.ClientAnswerWithheld | crates/lhv-proxy/src/query.rs:20-22 | a run in which a client uses an outstanding id and its own answer is the one withheld |
| Views.TeeAgreesWithStream | crates/lhv-proxy/src/forward.rs:147-164 | diagnostics and progress are the parse of the last such notification queued to Helix, `elaborating` is progress being non-empty, and the counter counts all folds |
| Views.SlotShowsLastAnswer | crates/lhv-proxy/src/query.rs:146-191 | the goals, the term goal and the focus shown are those of the last answer applied to each |
| Views.FocusTagIsMaximum | crates/lhv-proxy/src/query.rs:146-191 | the generation of the document and position shown is the larger of those of the goals and of the term goal |
| Views.TagsNeverDecrease | crates/lhv-proxy/src/forward.rs:133-139 | an answer is applied only in the latest generation, and no part of the snapshot goes back to an earlier one |
| Views.SettledGenerationIsConsistent | crates/lhv-proxy/src/forward.rs:133-139 | once both queries of the latest generation were accepted and neither is outstanding, goals, term goal, document and position all come from its focus |
| Causality.QueriesFollowTheirCauses | crates/lhv-proxy/src/forward.rs:92-98 | every query written to Lean comes after `initialized`, after the event that gave its document its version, and after the very client message whose position it carries |
| EndToEnd.CopiesExactly | crates/lhv-proxy/src/forward.rs:94-98 | every forwarded client message is copied to the snoop unless that is gone or 256 copies wait |
| EndToEnd.FocusReachesSnapshot | crates/lhv-proxy/src/forward.rs:70-176 | from any quiet state of any run, a client message that points at a focus can be followed to where Lean was written it and both queries, and the answers are what the snapshot shows, with nothing of it sent to Helix |
| Shutdown.StepIsWork | crates/lhv-proxy/src/forward.rs:279-283 | once the child is reaped, every step of every task leaves less to do |
| Shutdown.ShutdownIsBounded | crates/lhv-proxy/src/run.rs:91-119 | a shutdown takes at most as many steps as there was work at the reaping |
| Shutdown.ShutdownNeverSticks | crates/lhv-proxy/src/run.rs:91-119 | until the exit some task can always step |
| Shutdown.DrainFollowsJoin | crates/lhv-proxy/src/run.rs:96-118 | when the client closed first, draining waits for the server pump; otherwise it starts with the reaping; client pump and snoop are gone either way |
| Shutdown.EveryShutdownExits | crates/lhv-proxy/src/run.rs:91-119 | in every run, after the reaping the number of steps is bounded and nothing is left to step exactly at the exit |
| Shutdown.ChildMayBeGone | crates/lhv-proxy/src/run.rs:91-116 | while the child is waited for, nothing assumed of Lean stands in the way of its end |
| Shutdown.ExitIsReachable | crates/lhv-proxy/src/run.rs:91-119 | in every run, once a pump has ended, the proxy can go on to its exit without a further signal |
| Shutdown.ClosingIsNoticed | crates/lhv-proxy/src/forward.rs:262-267 | when a pump has ended the control path can go on to wait for the child, and when that is gone, on to the reaping |
| Shutdown.HalfCloseIsComplete | crates/lhv-proxy/src/forward.rs:70-81 | a half-close without a failed write comes after every accepted frame was written whole, with no sender left |
| Shutdown.ExitIsDrained | crates/lhv-proxy/src/run.rs:91-119 | at the exit both sinks are closed and, writes permitting, everything accepted was written |
| Publish.ViewersGetSnapshotsInOrder | crates/lhv-proxy/src/server.rs:46-57 | each viewer's counters strictly increase, each snapshot is the fold of exactly that many updates, and a viewer with nothing unseen has the current state |
| Publish.FirstSnapshotIsCurrent | crates/lhv-proxy/src/server.rs:46-50 | the first snapshot a viewer receives was current when it connected |
| Publish.ViewersNeverTouchTheState | crates/lhv-proxy/src/state.rs:29-40 | the state is the fold of what was published, whatever viewers do |
| Publish.ProducerNeverWaits | crates/lhv-proxy/src/state.rs:33-40 | any updates can be published in a row without a viewer moving |
| Publish.ViewerCatchesUp | crates/lhv-proxy/src/server.rs:46-57 | at most two steps of its own bring a live viewer to the current state |
| Publish.ViewerTask.constructor | crates/lhv-proxy/src/server.rs:47-49 | a viewer starts by replaying the current snapshot |
| Publish.ViewerTask.Written | crates/lhv-proxy/src/server.rs:51-54 | a completed write goes on with what changed meanwhile or waits; a failed one ends the connection |
| Publish.ViewerTask.Changed | crates/lhv-proxy/src/server.rs:49-52 | a change makes the viewer read the latest snapshot |
| Publish.ViewerTask.Read | crates/lhv-proxy/src/server.rs:49 | reading takes the latest snapshot and marks it seen |
| Takeover.SocketPath.ReclaimAndBind | crates/lhv-proxy/src/server.rs:67-80 | the path ends up with the new socket, unchanged, or empty, and in which cases |
| Takeover.SocketCleanup.constructor | crates/lhv-proxy/src/server.rs:90-97 | the cleanup remembers the inode found at the path |
| Takeover.SocketCleanup.Drop | crates/lhv-proxy/src/server.rs:99-105 | the cleanup unlinks the path exactly when it holds the captured inode |
| Takeover.PathWhileNoneBinds | crates/lhv-proxy/src/server.rs:26-105 | for all runs, from one bind to the next the path is lost exactly by the exit of a proxy that captured that inode or by a takeover that removed it and failed |
| Takeover.NewestKeepsTheSocket | crates/lhv-proxy/src/server.rs:26-105 | with prompt lookups the path holds the newest proxy's inode exactly until that proxy exits cleanly or a takeover fails |
| Takeover.LateLookupLosesTheSocket | crates/lhv-proxy/src/server.rs:26-28 | a run in which a late lookup makes an older proxy remove a live newer socket |
| SocketKey.AbsorbIsBijective | crates/lhv-wire/src/lib.rs:187-188 | absorbing a byte is a bijection on 64-bit words |
| SocketKey.AbsorbSeparatesBytes | crates/lhv-wire/src/lib.rs:187-188 | one state absorbs different bytes into different states |
| SocketKey.Fnv1a64 | crates/lhv-wire/src/lib.rs:184-191 | the loop computes the hash |
| SocketKey.KnownHashes | crates/lhv-wire/src/lib.rs:184-191 | the published FNV-1a values of the empty text and of "a" |
| SocketKey.XorIsBitwise | crates/lhv-wire/src/lib.rs:187 | the exclusive or is that of every bit |
| SocketKey.CommonSuffix | crates/lhv-wire/src/lib.rs:184-191 | a common suffix neither creates nor removes a collision |
| SocketKey.OneByteApart | crates/lhv-wire/src/lib.rs:184-191 | roots that differ in one byte only never share a socket |
| SocketKey.NamesAddNoCollisions | crates/lhv-wire/src/lib.rs:135-137 | two roots share a socket name exactly when their hashes are equal |
| SocketKey.SocketNamesExactly | crates/lhv-wire/src/lib.rs:135-137 | the name is the hash in sixteen small hexadecimal digits, then `.sock` |
| Highlight.PlainTexts | crates/lhv-viewer/src/lib.rs:414-421 | the plain rendering shows, without style, the source less the carriage returns at its lines' ends, line by line |
| Highlight.StackIsOpenHighlights | crates/lhv-viewer/src/lib.rs:435-453 | the style stack is never empty and its entries are the open highlights, innermost on top, whatever the nesting |
| Highlight.Find | crates/lhv-viewer/src/lib.rs:482 | the first turnstile, or that there is none |
| Highlight.LineBuilder.PushPlainOperators | crates/lhv-viewer/src/lib.rs:480-497 | unstyled text keeps its characters, each turnstile drawn as an operator |
| Highlight.LineBuilder.BreakLine | crates/lhv-viewer/src/lib.rs:468-470 | a newline ends the current line and starts an empty one |
| Highlight.LineBuilder.PushSource | crates/lhv-viewer/src/lib.rs:461-478 | a piece adds its lines with the carriage returns at line ends removed, in its style |
| Highlight.LineBuilder.Handle | crates/lhv-viewer/src/lib.rs:436-456 | each event draws a piece in the innermost open style or changes the open styles |
| Highlight.HighlightedLean | crates/lhv-viewer/src/lib.rs:423-459 | the page draws what the events say, or is plain after a failure; a source without carriage returns keeps its text line by line |
| Highlight.HighlightIsShown | crates/lhv-viewer/src/lib.rs:436-453 | the pieces inside a highlight appear on the page in its style, whatever was begun and ended inside it and whatever surrounds it |
| Highlight.HighlightEnds | crates/lhv-viewer/src/lib.rs:449-453 | after its matching end pieces are drawn as if it had never been |
| Highlight.UnhighlightedIsPlain | crates/lhv-viewer/src/lib.rs:472-491 | with no highlight open every character is in the default style except the turnstile, yellow and bold |
| Highlight.CleanCut | crates/lhv-viewer/src/lib.rs:467-471 | cutting a text in two loses text exactly when the cut follows a carriage return that is not at the end of its line |
| Highlight.DrawingKeepsText | crates/lhv-viewer/src/lib.rs:423-478 | for any events covering the source, its text is kept exactly when no piece ends in a carriage return or has one before a newline |
| Highlight.SameLinesAsPlain | crates/lhv-viewer/src/lib.rs:414-478 | for any events covering the source, the line texts are those of the plain rendering exactly when no cut is bad |
| Highlight.SplitReturnIsLost | crates/lhv-viewer/src/lib.rs:467-471 | a concrete source and cut for which the two renderings differ |

## Left out

- Parsing and printing JSON text: a frame carries the value its body decodes to, and the bytes
  of a query are what an unspecified serializer makes of its value.
- The operating system: processes, signals, real sockets and files, the reaping timer,
  logging and the cadence capture. Their events (end of input, failed write, child gone) are
  steps that may happen at any time.
- Debounce: time is counted in ticks; `debounce` must be positive in `WindowBound`, since
  otherwise no rate is promised.
- Forward: aborting a task takes effect in the same step, where the runtime does it at the
  task's next turn.
- NoLeak.NoAnswerLeaks: stated as counts per string id, because a client that itself uses an
  injected id is owed its own answers under it.
- Channel.SinkQueue.TrySend: whether a freed slot is already promised to the waiting client
  pump is left open whenever that pump has a frame to send; the runtime promises it only to
  one that found the queue full.
- Channel: after a failed write the bytes of the frame being written are not modelled, only
  that it may be incomplete; the queue goes on accepting until the sink is shut down.
- Codec.ReadFrame: a length that a vector could hold but memory cannot aborts the process; here
  it is read as far as the input goes.
- Query.Outstanding.NextGeneration: this counter and the snapshot's wrap as in a release build;
  a debug build would stop instead.
- Takeover: checking the inode and unlinking are one step, and so are the calls inside one
  takeover; binding and looking the inode up are two.
- Highlight: the sources of events (the grammar and its queries) and the table of theme
  colours; pieces are cut between characters, where the program cuts between bytes.
- Envelope: the flags for a result or an error, which nothing in the proxy reads.
- Binding the viewer socket once the workspace root is known.
- The terminal interface, the reconnection backoff, percent-decoding of root URIs, the search
  for a workspace root, the stripping of code fences, the debug sink and the trigger list's
  defaults: they would add only easy members.
