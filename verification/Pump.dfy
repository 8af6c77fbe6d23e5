/**
 The connection pump: a reader, a writer and a transmit task around one rustls
 connection.  The tasks are cooperative and hold no borrow across an await, so one
 step is everything a task does between two awaits.

 rustls is abstract.  What is assumed of it:
 - it leaves the handshaking state only while processing packets;
 - a read of zero bytes of plaintext happens only after the peer's close_notify;
 - decrypted data is handed out in order until none is left.
 The sizes of the pieces it hands out, the packets it finds, its failures and what it
 produces for the peer are arbitrary and are carried by the events.
 */
module Pump {
  import opened Basics

  // ---------------------------------------------------------------- rustls

  /** `pending` is produced but not yet drained; `plaintext` decrypted but not yet
      read.  `produced` and `decrypted` are the whole histories. */
  datatype Conn = Conn(
    handshaking: bool, pending: seq<Byte>, plaintext: seq<Byte>, peerClosed: bool,
    produced: seq<Byte>, decrypted: seq<Byte>)

  function Produce(c: Conn, out: seq<Byte>): Conn {
    c.(pending := c.pending + out, produced := c.produced + out)
  }

  /** What processing one run of packets can do to the connection. */
  datatype Packets = Packets(out: seq<Byte>, plain: seq<Byte>, closes: bool, completes: bool, sizes: seq<nat>)

  function Process(c: Conn, p: Packets): Conn {
    Produce(c, p.out).(
      handshaking := c.handshaking && !p.completes,
      plaintext := c.plaintext + p.plain, decrypted := c.decrypted + p.plain,
      peerClosed := c.peerClosed || p.closes)
  }

  // ---------------------------------------------------------------- the transmit queue

  function Flat(chunks: seq<seq<Byte>>): seq<Byte> {
    if chunks == [] then [] else chunks[0] + Flat(chunks[1..])
  }

  /** `drain_tls_writes`: `sizes` are the results of successive `write_tls` calls, an
      exhausted list or a zero standing for the two breaks. */
  function Drain(pending: seq<Byte>, queue: seq<seq<Byte>>, sizes: seq<nat>): (seq<Byte>, seq<seq<Byte>>)
    decreases |sizes|
  {
    if pending == [] || sizes == [] || sizes[0] == 0 then (pending, queue)
    else
      var n := if sizes[0] <= |pending| then sizes[0] else |pending|;
      Drain(pending[n..], queue + [pending[..n]], sizes[1..])
  }

  // ---------------------------------------------------------------- protocol state

  datatype Reader =
    | Reading
    | Delivering(left: seq<Byte>, failed: bool, clean: bool, ended: bool)
    | ReaderVerdict(ok: bool)
    | ReaderDone(ok: bool)

  datatype Writer = AwaitingInput | WriterVerdict(ok: bool) | WriterDone(ok: bool)

  datatype Transmit = Idle | Sending(rest: seq<Byte>) | StreamClosed

  /** The connection together with the queue its records go to. */
  datatype Link = Link(conn: Conn, queue: seq<seq<Byte>>)

  /** The cell of the one-shot handshake signal, and how often each outcome was raised. */
  datatype Cell = Cell(sender: bool, oks: nat, errs: nat)

  /** Which ends the reader and the writer still hold. */
  datatype Ends = Ends(
    ciphertextIn: bool, cleartextOut: bool, readerSink: bool, cleartextIn: bool, writerSink: bool)

  /** The far side of an outgoing stream: whether it went away, what it took, and what
      was given up because it had gone. */
  datatype Peer = Peer(gone: bool, done: seq<Byte>, lost: seq<Byte>)

  datatype Sys = Sys(
    link: Link, cell: Cell, ends: Ends,
    reader: Reader, cleanClose: bool, extracted: seq<Byte>, consumer: Peer,
    writer: Writer,
    transmit: Transmit, transport: Peer)
  {
    predicate ReaderLeft() { reader.ReaderVerdict? || reader.ReaderDone? }
    predicate WriterLeft() { writer.WriterVerdict? || writer.WriterDone? }

    function InDelivery(): seq<Byte> { if reader.Delivering? then reader.left else [] }
    function InTransmission(): seq<Byte> { if transmit.Sending? then transmit.rest else [] }
  }

  /** One pass of the loop that feeds a received buffer to rustls. */
  datatype Pass = ReadNothing | ReadFailed | Processed(p: Packets) | ProcessFailed(p: Packets)

  datatype Event =
    | ReaderInput(passes: seq<Pass>, eof: bool, ended: bool)   // a non-empty buffer
    | ReaderEmpty(ended: bool)
    | Deliver(n: nat)
    | Delivered
    | ReaderReport
    | WriterInput(ok: bool, out: seq<Byte>, sizes: seq<nat>, ended: bool, closing: seq<Byte>, closeSizes: seq<nat>)
    | WriterEmpty(ended: bool, closing: seq<Byte>, closeSizes: seq<nat>)
    | WriterReport
    | TransmitNext
    | TransmitSome(n: nat)
    | TransmitDone
    | ConsumerDrop
    | TransportDrop
  {
    predicate Transmits() { TransmitNext? || TransmitSome? || TransmitDone? }
  }

  predicate Enabled(s: Sys, e: Event) {
    match e
    case ReaderInput(_, _, _) => s.reader == Reading
    case ReaderEmpty(_) => s.reader == Reading
    case Deliver(n) => s.reader.Delivering? && !s.consumer.gone && 0 < n <= |s.reader.left|
    case Delivered => s.reader.Delivering? && (s.reader.left == [] || s.consumer.gone)
    case ReaderReport => s.reader.ReaderVerdict?
    case WriterInput(_, _, _, _, _, _) => s.writer == AwaitingInput
    case WriterEmpty(_, _, _) => s.writer == AwaitingInput
    case WriterReport => s.writer.WriterVerdict?
    case TransmitNext => s.transmit == Idle && (s.link.queue != [] || (!s.ends.readerSink && !s.ends.writerSink))
    case TransmitSome(n) => s.transmit.Sending? && !s.transport.gone && 0 < n <= |s.transmit.rest|
    case TransmitDone => s.transmit.Sending? && (s.transmit.rest == [] || s.transport.gone)
    case ConsumerDrop => true
    case TransportDrop => true
  }

  // ---------------------------------------------------------------- handshake signal

  function Check(cell: Cell, handshaking: bool): Cell {
    if !handshaking && cell.sender then Cell(false, cell.oks + 1, cell.errs) else cell
  }

  function Fail(cell: Cell): Cell {
    if cell.sender then Cell(false, cell.oks, cell.errs + 1) else cell
  }

  function DrainLink(l: Link, sizes: seq<nat>): Link {
    var (pending, queue) := Drain(l.conn.pending, l.queue, sizes);
    Link(l.conn.(pending := pending), queue)
  }

  function ProduceLink(l: Link, out: seq<Byte>): Link {
    l.(conn := Produce(l.conn, out))
  }

  // ---------------------------------------------------------------- reader

  datatype Fed = Fed(link: Link, failed: bool, clean: bool)

  /** The loop over one received buffer. */
  function Feed(l: Link, passes: seq<Pass>, clean: bool): Fed
    decreases |passes|
  {
    if passes == [] then Fed(l, false, clean)
    else
      match passes[0]
      case ReadNothing => Fed(l, false, clean)
      case ReadFailed => Fed(l, true, clean)
      case Processed(p) =>
        var m := DrainLink(l.(conn := Process(l.conn, p)), p.sizes);
        Feed(m, passes[1..], clean || m.conn.peerClosed)
      case ProcessFailed(p) => Fed(DrainLink(l.(conn := Process(l.conn, p)), p.sizes), true, clean)
  }

  /** Leaving the loop: every stream end the direction owns goes before the verdict. */
  function ReaderExit(s: Sys, ok: bool): Sys {
    s.(reader := ReaderVerdict(ok),
       ends := s.ends.(ciphertextIn := false, cleartextOut := false, readerSink := false))
  }

  function ReaderFails(s: Sys): Sys {
    ReaderExit(s.(cell := Fail(s.cell)), false)
  }

  /** The test on the stream status that ends each pass. */
  function AtStatus(s: Sys, clean: bool, ended: bool): Sys {
    var t := s.(cleanClose := clean);
    if !ended then t.(reader := Reading)
    else if clean then ReaderExit(t, true)
    else ReaderFails(t)
  }

  /** The tests that follow a processed buffer. */
  function AfterBuffer(s: Sys, failed: bool, clean: bool, ended: bool): Sys {
    var t := s.(cleanClose := clean);
    if failed then ReaderFails(t)
    else if clean then ReaderExit(t, true)
    else AtStatus(s, clean, ended)
  }

  /** A buffer arrived.  `read_available_plaintext` hands out everything decrypted; its
      end of file is genuine only after close_notify. */
  function ReaderStep(s: Sys, passes: seq<Pass>, eof: bool, ended: bool): Sys {
    var fed := Feed(s.link, passes, s.cleanClose);
    var conn := fed.link.conn;
    var clean := fed.clean || (eof && conn.peerClosed);
    var t := s.(link := fed.link, cell := Check(s.cell, conn.handshaking));
    if conn.plaintext == [] then AfterBuffer(t, fed.failed, clean, ended)
    else
      t.(link := fed.link.(conn := conn.(plaintext := [])),
         extracted := s.extracted + conn.plaintext,
         reader := Delivering(conn.plaintext, fed.failed, clean, ended))
  }

  // ---------------------------------------------------------------- writer

  function WriterExit(s: Sys, ok: bool): Sys {
    s.(writer := WriterVerdict(ok), ends := s.ends.(cleartextIn := false, writerSink := false))
  }

  function WriterAtStatus(s: Sys, ended: bool, closing: seq<Byte>, sizes: seq<nat>): Sys {
    if ended then WriterExit(s.(link := DrainLink(ProduceLink(s.link, closing), sizes)), true) else s
  }

  function WriterStep(s: Sys, out: seq<Byte>, sizes: seq<nat>): Sys {
    var l := DrainLink(ProduceLink(s.link, out), sizes);
    s.(link := l, cell := Check(s.cell, l.conn.handshaking))
  }

  // ---------------------------------------------------------------- steps

  function Take(p: Peer, bytes: seq<Byte>): Peer {
    p.(done := p.done + bytes)
  }

  function GiveUp(p: Peer, bytes: seq<Byte>): Peer {
    p.(lost := p.lost + bytes)
  }

  function TransmitStep(s: Sys, e: Event): Sys
    requires e.Transmits() && Enabled(s, e)
  {
    match e
    case TransmitNext =>
      var queue := s.link.queue;
      if queue != [] then s.(link := s.link.(queue := queue[1..]), transmit := Sending(queue[0]))
      else s.(transmit := StreamClosed)
    case TransmitSome(n) =>
      s.(transmit := Sending(s.transmit.rest[n..]), transport := Take(s.transport, s.transmit.rest[..n]))
    case TransmitDone => s.(transmit := Idle, transport := GiveUp(s.transport, s.transmit.rest))
  }

  function Step(s: Sys, e: Event): Sys
    requires Enabled(s, e)
  {
    match e
    case ReaderInput(passes, eof, ended) => ReaderStep(s, passes, eof, ended)
    case ReaderEmpty(ended) => AtStatus(s, s.cleanClose, ended)
    case Deliver(n) =>
      s.(reader := s.reader.(left := s.reader.left[n..]),
         consumer := Take(s.consumer, s.reader.left[..n]))
    case Delivered =>
      AfterBuffer(s.(consumer := GiveUp(s.consumer, s.reader.left)),
                  s.reader.failed, s.reader.clean, s.reader.ended)
    case ReaderReport => s.(reader := ReaderDone(s.reader.ok))
    case WriterInput(ok, out, sizes, ended, closing, closeSizes) =>
      if ok then WriterAtStatus(WriterStep(s, out, sizes), ended, closing, closeSizes)
      else WriterExit(s.(link := ProduceLink(s.link, out)), false)
    case WriterEmpty(ended, closing, closeSizes) => WriterAtStatus(s, ended, closing, closeSizes)
    case WriterReport => s.(writer := WriterDone(s.writer.ok))
    case TransmitNext => TransmitStep(s, e)
    case TransmitSome(_) => TransmitStep(s, e)
    case TransmitDone => TransmitStep(s, e)
    case ConsumerDrop => s.(consumer := s.consumer.(gone := true))
    case TransportDrop => s.(transport := s.transport.(gone := true))
  }

  /** The state once the tasks are spawned: the first flight, if any, is drained. */
  function Start(flight: seq<Byte>, sizes: seq<nat>): Sys {
    Sys(DrainLink(Link(Conn(true, flight, [], false, flight, []), []), sizes),
        Cell(true, 0, 0), Ends(true, true, true, true, true),
        Reading, false, [], Peer(false, [], []),
        AwaitingInput,
        Idle, Peer(false, [], []))
  }

  predicate ValidRun(s: Sys, es: seq<Event>)
    decreases |es|
  {
    es == [] || (Enabled(s, es[0]) && ValidRun(Step(s, es[0]), es[1..]))
  }

  function Final(s: Sys, es: seq<Event>): Sys
    requires ValidRun(s, es)
    decreases |es|
  {
    if es == [] then s else Final(Step(s, es[0]), es[1..])
  }
}
