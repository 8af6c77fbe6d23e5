/** What every step of the pump keeps. */
module PumpInvariants {
  import opened Basics
  import opened Pump

  // ---------------------------------------------------------------- draining

  lemma {:induction false} FlatAppend(chunks: seq<seq<Byte>>, c: seq<Byte>)
    ensures Flat(chunks + [c]) == Flat(chunks) + c
  {
    if chunks == [] {
      assert chunks + [c] == [c];
      assert [c][1..] == [];
    } else {
      assert (chunks + [c])[1..] == chunks[1..] + [c];
      FlatAppend(chunks[1..], c);
    }
  }

  /** Draining moves bytes from the connection to the back of the queue, in order. */
  lemma {:induction false} DrainKeeps(pending: seq<Byte>, queue: seq<seq<Byte>>, sizes: seq<nat>)
    ensures var (p, q) := Drain(pending, queue, sizes); Flat(q) + p == Flat(queue) + pending
    decreases |sizes|
  {
    if pending == [] || sizes == [] || sizes[0] == 0 {
    } else {
      var n := if sizes[0] <= |pending| then sizes[0] else |pending|;
      FlatAppend(queue, pending[..n]);
      DrainKeeps(pending[n..], queue + [pending[..n]], sizes[1..]);
      assert pending == pending[..n] + pending[n..];
    }
  }

  // ---------------------------------------------------------------- invariants

  /** Ciphertext that has left the queue. */
  function Past(s: Sys): seq<Byte> {
    s.transport.done + s.transport.lost + s.InTransmission()
  }

  /** Everything rustls produced is emitted, given up, being sent, queued or pending. */
  predicate Ciphertext(s: Sys) {
    && s.link.conn.produced == Past(s) + (Flat(s.link.queue) + s.link.conn.pending)
    && (!s.transport.gone ==> s.transport.lost == [])
  }

  /** Everything rustls decrypted is delivered, given up or being delivered. */
  predicate Cleartext(s: Sys) {
    && s.link.conn.decrypted == s.extracted && s.link.conn.plaintext == []
    && s.extracted == s.consumer.done + s.consumer.lost + s.InDelivery()
    && (!s.consumer.gone ==> s.consumer.lost == [])
  }

  /** Who still holds which stream end, and when the ciphertext stream is closed. */
  predicate EndsHeld(s: Sys) {
    && (s.ends.readerSink <==> !s.ReaderLeft())
    && (s.ends.ciphertextIn <==> !s.ReaderLeft())
    && (s.ends.cleartextOut <==> !s.ReaderLeft())
    && (s.ends.writerSink <==> !s.WriterLeft())
    && (s.ends.cleartextIn <==> !s.WriterLeft())
    && (s.transmit == StreamClosed ==> !s.ends.readerSink && !s.ends.writerSink && s.link.queue == [])
  }

  /** The signal against the handshake and the way the reader left. */
  predicate Signalled(s: Sys) {
    && s.cell.oks + s.cell.errs == (if s.cell.sender then 0 else 1)
    && (s.cell.sender ==> s.link.conn.handshaking)
    && (s.cell.oks > 0 ==> !s.link.conn.handshaking)
    && (s.cell.errs > 0 ==> s.link.conn.handshaking && s.ReaderLeft() && !s.reader.ok)
    && (s.ReaderLeft() && !s.reader.ok ==> !s.cell.sender)
  }

  /** Truncation: what the clean-close flag and the verdict say about the peer. */
  predicate Truncation(s: Sys) {
    && (s.reader == Reading ==> !s.cleanClose && !s.link.conn.peerClosed)
    && (s.reader.Delivering? && s.reader.clean ==> s.link.conn.peerClosed)
    && (s.reader.Delivering? && !s.reader.failed && s.link.conn.peerClosed ==> s.reader.clean)
    && (s.ReaderLeft() && s.reader.ok ==> s.link.conn.peerClosed)
  }

  predicate Control(s: Sys) {
    EndsHeld(s) && Signalled(s) && Truncation(s)
  }

  predicate Inv(s: Sys) {
    Ciphertext(s) && Cleartext(s) && Control(s)
  }

  // ---------------------------------------------------------------- connection and queue

  /** With `sent` already past the queue and `read` already extracted, the connection
      and the queue hold the rest of both histories. */
  predicate Holds(sent: seq<Byte>, read: seq<Byte>, l: Link) {
    && l.conn.produced == sent + (Flat(l.queue) + l.conn.pending)
    && l.conn.decrypted == read + l.conn.plaintext
  }

  lemma ProcessHolds(sent: seq<Byte>, read: seq<Byte>, l: Link, p: Packets)
    requires Holds(sent, read, l)
    ensures Holds(sent, read, l.(conn := Process(l.conn, p)))
  {
    assert Flat(l.queue) + (l.conn.pending + p.out) == Flat(l.queue) + l.conn.pending + p.out;
  }

  lemma ProduceHolds(sent: seq<Byte>, read: seq<Byte>, l: Link, out: seq<Byte>)
    requires Holds(sent, read, l)
    ensures Holds(sent, read, ProduceLink(l, out))
  {
    assert Flat(l.queue) + (l.conn.pending + out) == Flat(l.queue) + l.conn.pending + out;
  }

  lemma DrainHolds(sent: seq<Byte>, read: seq<Byte>, l: Link, sizes: seq<nat>)
    requires Holds(sent, read, l)
    ensures Holds(sent, read, DrainLink(l, sizes))
    ensures DrainLink(l, sizes).conn == l.conn.(pending := DrainLink(l, sizes).conn.pending)
  {
    DrainKeeps(l.conn.pending, l.queue, sizes);
  }

  /** The flag never falls. */
  lemma {:induction false} FeedFlag(l: Link, passes: seq<Pass>, clean: bool)
    ensures clean ==> Feed(l, passes, clean).clean
    decreases |passes|
  {
    if passes != [] && passes[0].Processed? {
      var m := DrainLink(l.(conn := Process(l.conn, passes[0].p)), passes[0].p.sizes);
      FeedFlag(m, passes[1..], clean || m.conn.peerClosed);
    }
  }

  /** Feeding a buffer conserves bytes both ways; the flag rises only after the
      peer's close_notify, and does rise if that arrived in a buffer that did not fail;
      the handshake is never re-entered. */
  lemma {:induction false} FeedHolds(sent: seq<Byte>, read: seq<Byte>, l: Link, passes: seq<Pass>, clean: bool)
    requires Holds(sent, read, l) && (clean ==> l.conn.peerClosed)
    ensures var f := Feed(l, passes, clean);
            && Holds(sent, read, f.link)
            && (f.clean ==> f.link.conn.peerClosed)
            && (f.link.conn.peerClosed && !f.failed ==> f.clean || l.conn.peerClosed)
            && (!l.conn.peerClosed && !f.failed ==> (f.clean <==> f.link.conn.peerClosed))
            && (f.link.conn.handshaking ==> l.conn.handshaking)
    decreases |passes|
  {
    if passes != [] && (passes[0].Processed? || passes[0].ProcessFailed?) {
      var p := passes[0].p;
      var m := l.(conn := Process(l.conn, p));
      ProcessHolds(sent, read, l, p);
      DrainHolds(sent, read, m, p.sizes);
      if passes[0].Processed? {
        var n := DrainLink(m, p.sizes);
        FeedHolds(sent, read, n, passes[1..], clean || n.conn.peerClosed);
        FeedFlag(n, passes[1..], clean || n.conn.peerClosed);
      }
    }
  }

  // ---------------------------------------------------------------- what a buffer held

  /** A buffer fails if the first of its passes that is not processed is an error. */
  predicate BufferFails(passes: seq<Pass>) {
    exists k :: 0 <= k < |passes| && FailsAt(passes, k)
  }

  predicate FailsAt(passes: seq<Pass>, k: nat)
    requires k < |passes|
  {
    (passes[k].ReadFailed? || passes[k].ProcessFailed?) && forall j :: 0 <= j < k ==> passes[j].Processed?
  }

  /** The packets rustls is given, the failing ones included. */
  function Ran(passes: seq<Pass>): seq<Packets>
    decreases |passes|
  {
    if passes == [] then []
    else
      match passes[0]
      case Processed(p) => [p] + Ran(passes[1..])
      case ProcessFailed(p) => [p]
      case _ => []
  }

  function OutOf(ps: seq<Packets>): seq<Byte> {
    if ps == [] then [] else ps[0].out + OutOf(ps[1..])
  }

  function PlainOf(ps: seq<Packets>): seq<Byte> {
    if ps == [] then [] else ps[0].plain + PlainOf(ps[1..])
  }

  predicate SomeCloses(ps: seq<Packets>) {
    exists i :: 0 <= i < |ps| && ps[i].closes
  }

  predicate SomeCompletes(ps: seq<Packets>) {
    exists i :: 0 <= i < |ps| && ps[i].completes
  }

  lemma FailsFirst(passes: seq<Pass>)
    requires passes != []
    ensures passes[0].ReadNothing? ==> !BufferFails(passes)
    ensures passes[0].ReadFailed? || passes[0].ProcessFailed? ==> BufferFails(passes)
    ensures passes[0].Processed? ==> (BufferFails(passes) <==> BufferFails(passes[1..]))
  {
    if passes[0].ReadFailed? || passes[0].ProcessFailed? {
      assert FailsAt(passes, 0);
    }
    if passes[0].Processed? && BufferFails(passes) {
      var k :| 0 <= k < |passes| && FailsAt(passes, k);
      assert FailsAt(passes[1..], k - 1);
    }
    if passes[0].Processed? && BufferFails(passes[1..]) {
      var k :| 0 <= k < |passes[1..]| && FailsAt(passes[1..], k);
      assert FailsAt(passes, k + 1);
    }
  }

  lemma {:induction false} FeedFails(l: Link, passes: seq<Pass>, clean: bool)
    ensures Feed(l, passes, clean).failed <==> BufferFails(passes)
    decreases |passes|
  {
    if passes != [] {
      FailsFirst(passes);
      if passes[0].Processed? {
        var m := DrainLink(l.(conn := Process(l.conn, passes[0].p)), passes[0].p.sizes);
        FeedFails(m, passes[1..], clean || m.conn.peerClosed);
      }
    }
  }

  /** What the packets, in order, make of a connection. */
  predicate Became(c: Conn, ps: seq<Packets>, d: Conn) {
    && d.produced == c.produced + OutOf(ps) && d.decrypted == c.decrypted + PlainOf(ps)
    && (d.peerClosed <==> c.peerClosed || SomeCloses(ps))
    && (d.handshaking <==> c.handshaking && !SomeCompletes(ps))
    && d.plaintext == c.plaintext + PlainOf(ps)
  }

  lemma SomeOfBoth(a: seq<Packets>, b: seq<Packets>)
    ensures SomeCloses(a + b) <==> SomeCloses(a) || SomeCloses(b)
    ensures SomeCompletes(a + b) <==> SomeCompletes(a) || SomeCompletes(b)
  {
    assert forall i :: 0 <= i < |a| ==> (a + b)[i] == a[i];
    assert forall i :: 0 <= i < |b| ==> (a + b)[|a| + i] == b[i];
    assert forall i :: |a| <= i < |a + b| ==> (a + b)[i] == b[i - |a|];
  }

  lemma {:induction false} PlainOfBoth(a: seq<Packets>, b: seq<Packets>)
    ensures PlainOf(a + b) == PlainOf(a) + PlainOf(b)
  {
    if a == [] {
      assert a + b == b;
    } else {
      assert (a + b)[1..] == a[1..] + b;
      PlainOfBoth(a[1..], b);
    }
  }

  lemma {:induction false} OutOfBoth(a: seq<Packets>, b: seq<Packets>)
    ensures OutOf(a + b) == OutOf(a) + OutOf(b)
  {
    if a == [] {
      assert a + b == b;
    } else {
      assert (a + b)[1..] == a[1..] + b;
      OutOfBoth(a[1..], b);
    }
  }

  lemma BecameMore(c: Conn, p: Packets, ps: seq<Packets>, m: Conn, d: Conn)
    requires Became(c, [p], m) && Became(m, ps, d)
    ensures Became(c, [p] + ps, d)
  {
    hide SomeCloses, SomeCompletes, PlainOf, OutOf;
    PlainOfBoth([p], ps);
    OutOfBoth([p], ps);
    SomeOfBoth([p], ps);
  }

  lemma BecameOne(l: Link, p: Packets)
    ensures Became(l.conn, [p], DrainLink(l.(conn := Process(l.conn, p)), p.sizes).conn)
  {
    assert [p][0] == p && [p][1..] == [];
    assert OutOf([p]) == p.out && PlainOf([p]) == p.plain;
  }

  /** Feeding a buffer gives rustls exactly the packets up to the first failure. */
  lemma {:induction false} FeedBecomes(l: Link, passes: seq<Pass>, clean: bool)
    ensures Became(l.conn, Ran(passes), Feed(l, passes, clean).link.conn)
    decreases |passes|
  {
    if passes != [] && (passes[0].Processed? || passes[0].ProcessFailed?) {
      var p := passes[0].p;
      BecameOne(l, p);
      if passes[0].Processed? {
        var m := DrainLink(l.(conn := Process(l.conn, p)), p.sizes);
        FeedBecomes(m, passes[1..], clean || m.conn.peerClosed);
        BecameMore(l.conn, p, Ran(passes[1..]), m.conn, Feed(l, passes, clean).link.conn);
      }
    }
  }

  // ---------------------------------------------------------------- steps

  /** The reader's tests after a buffer touch no bytes. */
  lemma AfterBufferControl(s: Sys, failed: bool, clean: bool, ended: bool)
    requires !s.ReaderLeft() && EndsHeld(s) && Signalled(s)
    requires (clean ==> s.link.conn.peerClosed) && (s.link.conn.peerClosed && !failed ==> clean)
    ensures var t := AfterBuffer(s, failed, clean, ended);
            && Control(t)
            && t.link == s.link && t.transmit == s.transmit && t.transport == s.transport
            && t.extracted == s.extracted && t.consumer == s.consumer && t.InDelivery() == []
  {}

  /** Nothing about bytes depends on anything but these parts of the state. */
  lemma SameBytes(s: Sys, t: Sys)
    requires Ciphertext(s) && Cleartext(s)
    requires t.transmit == s.transmit && t.transport == s.transport
    requires t.extracted == s.extracted && t.consumer == s.consumer && t.InDelivery() == s.InDelivery()
    requires Holds(Past(s), s.extracted, t.link) && t.link.conn.plaintext == []
    ensures Ciphertext(t) && Cleartext(t)
  {}

  /** The plaintext just read is on its way to the consumer. */
  lemma ExtractedBytes(s: Sys, t: Sys, plaintext: seq<Byte>)
    requires Ciphertext(s) && Cleartext(s) && s.InDelivery() == [] && t.InDelivery() == plaintext
    requires t.transmit == s.transmit && t.transport == s.transport && t.consumer == s.consumer
    requires t.extracted == s.extracted + plaintext && t.link.conn.plaintext == []
    requires Holds(Past(s), t.extracted, t.link)
    ensures Ciphertext(t) && Cleartext(t)
  {}

  /** What a fed connection and the flag promise the rest of the step. */
  predicate FedWell(s: Sys, l: Link, failed: bool, clean: bool) {
    && Holds(Past(s), s.extracted, l)
    && (clean ==> l.conn.peerClosed) && (l.conn.peerClosed && !failed ==> clean)
    && (l.conn.handshaking ==> s.link.conn.handshaking)
  }

  lemma QuietBuffer(s: Sys, l: Link, failed: bool, clean: bool, ended: bool)
    requires Inv(s) && s.reader == Reading && FedWell(s, l, failed, clean) && l.conn.plaintext == []
    ensures Inv(AfterBuffer(s.(link := l, cell := Check(s.cell, l.conn.handshaking)), failed, clean, ended))
  {
    var t := s.(link := l, cell := Check(s.cell, l.conn.handshaking));
    AfterBufferControl(t, failed, clean, ended);
    SameBytes(s, AfterBuffer(t, failed, clean, ended));
  }

  lemma DataBuffer(s: Sys, l: Link, failed: bool, clean: bool, ended: bool)
    requires Inv(s) && s.reader == Reading && FedWell(s, l, failed, clean)
    ensures Inv(s.(link := l.(conn := l.conn.(plaintext := [])), cell := Check(s.cell, l.conn.handshaking),
                   extracted := s.extracted + l.conn.plaintext,
                   reader := Delivering(l.conn.plaintext, failed, clean, ended)))
  {
    var u := s.(link := l.(conn := l.conn.(plaintext := [])), cell := Check(s.cell, l.conn.handshaking),
                extracted := s.extracted + l.conn.plaintext,
                reader := Delivering(l.conn.plaintext, failed, clean, ended));
    ExtractedBytes(s, u, l.conn.plaintext);
  }

  lemma ReaderInputKeeps(s: Sys, passes: seq<Pass>, eof: bool, ended: bool)
    requires Inv(s) && s.reader == Reading
    ensures Inv(ReaderStep(s, passes, eof, ended))
  {
    FeedHolds(Past(s), s.extracted, s.link, passes, s.cleanClose);
    var fed := Feed(s.link, passes, s.cleanClose);
    var conn := fed.link.conn;
    var clean := fed.clean || (eof && conn.peerClosed);
    if conn.plaintext == [] {
      QuietBuffer(s, fed.link, fed.failed, clean, ended);
    } else {
      DataBuffer(s, fed.link, fed.failed, clean, ended);
    }
  }

  lemma WriterClose(s: Sys, ended: bool, closing: seq<Byte>, sizes: seq<nat>)
    requires Inv(s) && s.writer == AwaitingInput
    ensures Inv(WriterAtStatus(s, ended, closing, sizes))
  {
    if ended {
      ProduceHolds(Past(s), s.extracted, s.link, closing);
      DrainHolds(Past(s), s.extracted, ProduceLink(s.link, closing), sizes);
      SameBytes(s, WriterAtStatus(s, ended, closing, sizes));
    }
  }

  lemma WriterWrite(s: Sys, out: seq<Byte>, sizes: seq<nat>)
    requires Inv(s) && s.writer == AwaitingInput
    ensures Inv(WriterStep(s, out, sizes))
    ensures Inv(WriterExit(s.(link := ProduceLink(s.link, out)), false))
  {
    ProduceHolds(Past(s), s.extracted, s.link, out);
    SameBytes(s, WriterExit(s.(link := ProduceLink(s.link, out)), false));
    DrainHolds(Past(s), s.extracted, ProduceLink(s.link, out), sizes);
    SameBytes(s, WriterStep(s, out, sizes));
  }

  lemma WriterKeeps(s: Sys, e: Event)
    requires Inv(s) && (e.WriterInput? || e.WriterEmpty?) && Enabled(s, e)
    ensures Inv(Step(s, e))
  {
    if e.WriterInput? {
      WriterWrite(s, e.out, e.sizes);
      if e.ok {
        WriterClose(WriterStep(s, e.out, e.sizes), e.ended, e.closing, e.closeSizes);
      }
    } else {
      WriterClose(s, e.ended, e.closing, e.closeSizes);
    }
  }

  /** Handing over a prefix, or giving up the rest, moves bytes between two places. */
  lemma HandOver(done: seq<Byte>, lost: seq<Byte>, rest: seq<Byte>, n: nat)
    requires n <= |rest|
    ensures lost == [] ==> (done + rest[..n]) + lost + rest[n..] == done + lost + rest
    ensures done + (lost + rest) + [] == done + lost + rest
  {
    assert rest == rest[..n] + rest[n..];
  }

  lemma DeliverKeeps(s: Sys, n: nat)
    requires Inv(s) && Enabled(s, Deliver(n))
    ensures Inv(Step(s, Deliver(n)))
  {
    HandOver(s.consumer.done, s.consumer.lost, s.reader.left, n);
  }

  lemma DeliveredKeeps(s: Sys)
    requires Inv(s) && Enabled(s, Delivered)
    ensures Inv(Step(s, Delivered))
  {
    var t := s.(consumer := GiveUp(s.consumer, s.reader.left));
    AfterBufferControl(t, s.reader.failed, s.reader.clean, s.reader.ended);
    HandOver(s.consumer.done, s.consumer.lost, s.reader.left, 0);
  }

  lemma NextPast(s: Sys)
    requires Enabled(s, TransmitNext)
    ensures var t := TransmitStep(s, TransmitNext);
            Past(t) + Flat(t.link.queue) == Past(s) + Flat(s.link.queue)
  {
    var queue := s.link.queue;
    if queue != [] {
      Regroup(s.transport.done + s.transport.lost, queue[0], Flat(queue[1..]));
      assert s.transport.done + s.transport.lost + [] == s.transport.done + s.transport.lost;
    }
  }

  lemma TransmitPast(s: Sys, e: Event)
    requires (!s.transport.gone ==> s.transport.lost == []) && e.Transmits() && Enabled(s, e)
    ensures var t := TransmitStep(s, e);
            Past(t) + Flat(t.link.queue) == Past(s) + Flat(s.link.queue)
  {
    if e.TransmitSome? {
      HandOver(s.transport.done, s.transport.lost, s.transmit.rest, e.n);
    } else if e.TransmitDone? {
      HandOver(s.transport.done, s.transport.lost, s.transmit.rest, 0);
    } else {
      NextPast(s);
    }
  }

  lemma Regroup(a: seq<Byte>, b: seq<Byte>, c: seq<Byte>)
    ensures a + (b + c) == (a + b) + c
  {}

  lemma TransmitKeeps(s: Sys, e: Event)
    requires Inv(s) && e.Transmits() && Enabled(s, e)
    ensures Inv(TransmitStep(s, e))
  {
    var t := TransmitStep(s, e);
    TransmitPast(s, e);
    Regroup(Past(s), Flat(s.link.queue), s.link.conn.pending);
    Regroup(Past(t), Flat(t.link.queue), s.link.conn.pending);
  }

  lemma InvStep(s: Sys, e: Event)
    requires Inv(s) && Enabled(s, e)
    ensures Inv(Step(s, e))
  {
    if e.ReaderInput? {
      ReaderInputKeeps(s, e.passes, e.eof, e.ended);
    } else if e.WriterInput? || e.WriterEmpty? {
      WriterKeeps(s, e);
    } else if e.Transmits() {
      TransmitKeeps(s, e);
    } else if e.Deliver? {
      DeliverKeeps(s, e.n);
    } else if e.Delivered? {
      DeliveredKeeps(s);
    }
  }

  lemma {:induction false} InvRun(s: Sys, es: seq<Event>)
    requires Inv(s) && ValidRun(s, es)
    ensures Inv(Final(s, es))
    decreases |es|
  {
    if es != [] {
      InvStep(s, es[0]);
      InvRun(Step(s, es[0]), es[1..]);
    }
  }

  lemma StartInv(flight: seq<Byte>, sizes: seq<nat>)
    ensures Inv(Start(flight, sizes))
  {
    DrainHolds([], [], Link(Conn(true, flight, [], false, flight, []), []), sizes);
  }
}
