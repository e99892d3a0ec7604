/** A bounded queue with one consumer: the single writer of a sink. */
module Channel {
  import opened Prelude

  /** Frames buffered toward a sink before its producer has to wait. */
  const SINK_CAPACITY := 1024

  /** The writer waits for a frame, writes one, shuts the sink down (the queue still
      accepts frames meanwhile), or is gone. `clean` is false after a failed write. */
  datatype Writer = Receiving | Writing | Closing(clean: bool) | Closed(clean: bool)

  /** A queue and its history: everything accepted, everything the writer took out,
      and what was still queued when the writer went away. */
  datatype Sink<T> = Sink(sent: seq<T>, queue: seq<T>, taken: seq<T>, lost: seq<T>, writer: Writer) {

    /** Room for a sender that does not wait, when `reserved` tells whether a freed slot is
        already promised to one that does. */
    predicate HasRoomBeside(reserved: bool) {
      !writer.Closed? && |queue| + (if reserved then 1 else 0) < SINK_CAPACITY
    }

    predicate HasRoom() { !writer.Closed? && |queue| < SINK_CAPACITY }

    function Push(x: T): Sink<T>
    {
      this.(sent := sent + [x], queue := queue + [x])
    }

    /** The writer takes the oldest frame and starts writing it. */
    function Take(): Sink<T>
      requires |queue| > 0
    {
      this.(taken := taken + [queue[0]], queue := queue[1..], writer := Writing)
    }

    /** The frame is on the wire, whole and flushed. */
    function Wrote(): Sink<T> { this.(writer := Receiving) }

    /** The write failed part way; the writer gives up. */
    function Failed(): Sink<T> { this.(writer := Closing(false)) }

    /** Nothing is queued and nothing ever will be; the writer stops. */
    function Drained(): Sink<T> { this.(writer := Closing(true)) }

    /** The sink is shut down and the queue dropped with whatever it holds. */
    function Shut(): Sink<T>
      requires writer.Closing?
    {
      this.(writer := Closed(writer.clean), lost := queue, queue := [])
    }

    /** The last frame taken is not (known to be) completely written. */
    predicate Torn() { writer.Writing? || (writer.Closing? && !writer.clean) || (writer.Closed? && !writer.clean) }

    /** The frames completely written, in order. */
    function Written(): seq<T> {
      if Torn() && |taken| > 0 then taken[..|taken| - 1] else taken
    }

    /** The history is consistent: first in, first out, nothing lost while the writer
        lives, and a clean shutdown leaves nothing behind. */
    ghost predicate Valid() {
      && sent == taken + queue + lost
      && |queue| <= SINK_CAPACITY
      && (lost != [] ==> writer == Closed(false))
      && (writer.Closed? ==> queue == [])
      && (writer == Closing(true) ==> queue == [])
      && (Torn() ==> taken != [])
    }
  }

  /** The moves of a sink's writer. */
  datatype WriterStep = Take | Wrote | Fail | Drain | Shut

  /** Receiving ends only when the queue is empty and every sender is gone. */
  predicate WriterCan<T>(s: Sink<T>, senders: bool, step: WriterStep) {
    match step
    case Take => s.writer.Receiving? && |s.queue| > 0
    case Wrote => s.writer.Writing?
    case Fail => s.writer.Writing?
    case Drain => s.writer.Receiving? && |s.queue| == 0 && !senders
    case Shut => s.writer.Closing?
  }

  function WriterNext<T>(s: Sink<T>, senders: bool, step: WriterStep): Sink<T>
    requires WriterCan(s, senders, step)
  {
    match step
    case Take => s.Take()
    case Wrote => s.Wrote()
    case Fail => s.Failed()
    case Drain => s.Drained()
    case Shut => s.Shut()
  }

  lemma WriterKeepsValid<T>(s: Sink<T>, senders: bool, step: WriterStep)
    requires s.Valid() && WriterCan(s, senders, step)
    ensures WriterNext(s, senders, step).Valid()
  {
    if step.Take? {
      assert s.queue == [s.queue[0]] + s.queue[1..];
    }
  }

  lemma PushKeepsValid<T>(s: Sink<T>, x: T)
    requires s.Valid() && s.HasRoom() && s.writer != Closing(true)
    ensures s.Push(x).Valid()
  {
  }

  function NewSink<T>(): Sink<T> { Sink([], [], [], [], Receiving) }

  /** Everything ever accepted was written whole before a clean half-close. */
  lemma CleanCloseWroteEverything<T>(s: Sink<T>)
    requires s.Valid() && s.writer in {Closing(true), Closed(true)}
    ensures s.Written() == s.sent
  {
  }

  lemma WrittenIsPrefix<T>(s: Sink<T>)
    requires s.Valid()
    ensures s.Written() <= s.taken <= s.sent
  {
  }

  /** The queue as the tasks share it. `accepted` counts the frames ever accepted. */
  class SinkQueue<T(==)> {
    var queue: seq<T>
    var writer: Writer
    var accepted: nat
    ghost var sent: seq<T>
    ghost var taken: seq<T>
    ghost var lost: seq<T>

    ghost function View(): Sink<T>
      reads this
    {
      Sink(sent, queue, taken, lost, writer)
    }

    ghost predicate Valid()
      reads this
    {
      accepted == |sent|
    }

    constructor ()
      ensures Valid() && View() == NewSink()
    {
      queue, writer, accepted := [], Receiving, 0;
      sent, taken, lost := [], [], [];
    }

    /** Enqueue unless no slot is free or the consumer is gone; `reserved` tells whether a
        free slot is promised to a sender already waiting. */
    method TrySend(x: T, reserved: bool) returns (ok: bool)
      requires Valid()
      modifies this
      ensures Valid()
      ensures ok == old(View()).HasRoomBeside(reserved)
      ensures View() == if ok then old(View()).Push(x) else old(View())
    {
      var free := SINK_CAPACITY - |queue|;
      if reserved {
        free := free - 1;
      }
      ok := !writer.Closed? && free > 0;
      if ok {
        queue := queue + [x];
        accepted := accepted + 1;
        sent := sent + [x];
      }
    }

    /** One turn of the writer's loop, or its end: take the oldest frame, finish or fail the
        write in progress, stop on an empty queue without senders, or shut the sink. */
    method WriterTurn(ghost senders: bool, step: WriterStep)
      requires Valid() && WriterCan(View(), senders, step)
      modifies this
      ensures Valid() && View() == WriterNext(old(View()), senders, step)
    {
      match step {
        case Take =>
          taken := taken + [queue[0]];
          queue := queue[1..];
          writer := Writing;
        case Wrote => writer := Receiving;
        case Fail => writer := Closing(false);
        case Drain => writer := Closing(true);
        case Shut =>
          lost := queue;
          queue := [];
          writer := Closed(writer.clean);
      }
    }
  }
}
