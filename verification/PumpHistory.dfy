/** What the pump's state says about the events of the run: nothing here is read off the
    functions that make the steps, only off what the events carried. */
module PumpHistory {
  import opened Basics
  import opened Pump
  import opened PumpInvariants
  import opened PumpTheorems

  // ---------------------------------------------------------------- one step

  /** What the event makes rustls produce. */
  function Output(e: Event): seq<Byte> {
    match e
    case ReaderInput(passes, _, _) => OutOf(Ran(passes))
    case WriterInput(ok, out, _, ended, closing, _) => if ok && ended then out + closing else out
    case WriterEmpty(ended, closing, _) => if ended then closing else []
    case _ => []
  }

  /** The packets the event gives rustls. */
  function Packed(e: Event): seq<Packets> {
    if e.ReaderInput? then Ran(e.passes) else []
  }

  /** An event the writer leaves on: a failed write, or a stream that ended. */
  predicate WriterEnds(e: Event) {
    (e.WriterInput? && (!e.ok || e.ended)) || (e.WriterEmpty? && e.ended)
  }

  predicate WriteFails(e: Event) {
    e.WriterInput? && !e.ok
  }

  /** A write, its drain and its signal. */
  lemma WriteProduces(s: Sys, out: seq<Byte>, sizes: seq<nat>)
    ensures var t := WriterStep(s, out, sizes);
            && t.link.conn == s.link.conn.(produced := s.link.conn.produced + out, pending := t.link.conn.pending)
            && t.writer == s.writer && t.ends == s.ends
  {}

  lemma CloseProduces(s: Sys, ended: bool, closing: seq<Byte>, sizes: seq<nat>)
    ensures var t := WriterAtStatus(s, ended, closing, sizes);
            var out := if ended then closing else [];
            && t.link.conn == s.link.conn.(produced := s.link.conn.produced + out, pending := t.link.conn.pending)
            && t.writer == if ended then WriterVerdict(true) else s.writer
  {}

  lemma WriterProduces(s: Sys, e: Event)
    requires Enabled(s, e) && (e.WriterInput? || e.WriterEmpty?)
    ensures var c := Step(s, e).link.conn;
            && c.produced == s.link.conn.produced + Output(e) && c.decrypted == s.link.conn.decrypted
            && c.peerClosed == s.link.conn.peerClosed && c.handshaking == s.link.conn.handshaking
    ensures Step(s, e).WriterLeft() <==> WriterEnds(e)
    ensures Step(s, e).WriterLeft() ==> (Step(s, e).writer.ok <==> !WriteFails(e))
  {
    hide WriterStep, WriterAtStatus;
    if e.WriterEmpty? {
      CloseProduces(s, e.ended, e.closing, e.closeSizes);
    } else if e.ok {
      WriteProduces(s, e.out, e.sizes);
      CloseProduces(WriterStep(s, e.out, e.sizes), e.ended, e.closing, e.closeSizes);
      assert s.link.conn.produced + e.out + [] == s.link.conn.produced + e.out;
      assert s.link.conn.produced + (e.out + e.closing) == s.link.conn.produced + e.out + e.closing;
    }
  }

  lemma ReaderProduces(s: Sys, e: Event)
    requires Enabled(s, e) && e.ReaderInput?
    ensures var c := Step(s, e).link.conn;
            && c.produced == s.link.conn.produced + Output(e)
            && c.decrypted == s.link.conn.decrypted + PlainOf(Packed(e))
            && (c.peerClosed <==> s.link.conn.peerClosed || SomeCloses(Packed(e)))
            && (c.handshaking <==> s.link.conn.handshaking && !SomeCompletes(Packed(e)))
    ensures Step(s, e).writer == s.writer
  {
    FeedBecomes(s.link, e.passes, s.cleanClose);
  }

  lemma OthersProduceNothing(s: Sys, e: Event)
    requires Enabled(s, e) && !e.ReaderInput? && !e.WriterInput? && !e.WriterEmpty?
    ensures Step(s, e).link.conn == s.link.conn
    ensures Step(s, e).WriterLeft() <==> s.WriterLeft()
    ensures s.WriterLeft() ==> Step(s, e).writer.ok == s.writer.ok
  {}

  // ---------------------------------------------------------------- connection and writer over a run

  function Outputs(es: seq<Event>): seq<Byte> {
    if es == [] then [] else Output(es[0]) + Outputs(es[1..])
  }

  /** All packets rustls was given, in order. */
  function AllPackets(es: seq<Event>): seq<Packets> {
    if es == [] then [] else Packed(es[0]) + AllPackets(es[1..])
  }

  /** What rustls produced beside the packets' histories. */
  predicate Explained(c: Conn, out: seq<Byte>, ps: seq<Packets>, d: Conn) {
    && d.produced == c.produced + out && d.decrypted == c.decrypted + PlainOf(ps)
    && (d.peerClosed <==> c.peerClosed || SomeCloses(ps))
    && (d.handshaking <==> c.handshaking && !SomeCompletes(ps))
  }

  lemma StepExplained(s: Sys, e: Event)
    requires Enabled(s, e)
    ensures Explained(s.link.conn, Output(e), Packed(e), Step(s, e).link.conn)
  {
    if e.ReaderInput? {
      ReaderProduces(s, e);
    } else if e.WriterInput? || e.WriterEmpty? {
      WriterProduces(s, e);
    } else {
      OthersProduceNothing(s, e);
    }
  }

  lemma ExplainedBoth(c: Conn, out: seq<Byte>, ps: seq<Packets>, m: Conn, more: seq<Byte>, qs: seq<Packets>, d: Conn)
    requires Explained(c, out, ps, m) && Explained(m, more, qs, d)
    ensures Explained(c, out + more, ps + qs, d)
  {
    hide SomeCloses, SomeCompletes;
    SomeOfBoth(ps, qs);
    PlainOfBoth(ps, qs);
    assert c.produced + (out + more) == c.produced + out + more;
    assert c.decrypted + (PlainOf(ps) + PlainOf(qs)) == c.decrypted + PlainOf(ps) + PlainOf(qs);
  }

  lemma {:induction false} RunExplained(s: Sys, es: seq<Event>)
    requires ValidRun(s, es)
    ensures Explained(s.link.conn, Outputs(es), AllPackets(es), Final(s, es).link.conn)
    decreases |es|
  {
    if es != [] {
      hide Step, Enabled, Output, Packed, Explained;
      var t := Step(s, es[0]);
      StepExplained(s, es[0]);
      RunExplained(t, es[1..]);
      ExplainedBoth(s.link.conn, Output(es[0]), Packed(es[0]), t.link.conn, Outputs(es[1..]), AllPackets(es[1..]),
                    Final(s, es).link.conn);
    }
  }

  /** Over every run: rustls produced the first flight and then, in order, what it was
      made to produce by each buffer, write and close; it decrypted what the buffers held
      up to their first failure; and the two flags tell what the packets did. */
  lemma ConnectionExplained(flight: seq<Byte>, sizes: seq<nat>, es: seq<Event>)
    requires ValidRun(Start(flight, sizes), es)
    ensures var c := Final(Start(flight, sizes), es).link.conn;
            && c.produced == flight + Outputs(es) && c.decrypted == PlainOf(AllPackets(es))
            && (c.peerClosed <==> SomeCloses(AllPackets(es)))
            && (c.handshaking <==> !SomeCompletes(AllPackets(es)))
  {
    RunExplained(Start(flight, sizes), es);
    assert [] + PlainOf(AllPackets(es)) == PlainOf(AllPackets(es));
  }

  lemma {:induction false} WriterRun(s: Sys, es: seq<Event>)
    requires ValidRun(s, es)
    ensures Final(s, es).WriterLeft() <==> s.WriterLeft() || exists i :: 0 <= i < |es| && WriterEnds(es[i])
    ensures Final(s, es).WriterLeft() ==>
              (Final(s, es).writer.ok <==>
                 (s.WriterLeft() ==> s.writer.ok) && forall i :: 0 <= i < |es| ==> !WriteFails(es[i]))
    decreases |es|
  {
    if es != [] {
      var t := Step(s, es[0]);
      WriterStepFacts(s, es[0]);
      WriterRun(t, es[1..]);
      assert forall i :: 0 <= i < |es| - 1 ==> es[i + 1] == es[1..][i];
      assert forall i :: 0 < i < |es| ==> es[i] == es[1..][i - 1];
    }
  }

  lemma WriterStepFacts(s: Sys, e: Event)
    requires Enabled(s, e)
    ensures Step(s, e).WriterLeft() <==> s.WriterLeft() || WriterEnds(e)
    ensures Step(s, e).WriterLeft() ==> (Step(s, e).writer.ok <==> (s.WriterLeft() ==> s.writer.ok) && !WriteFails(e))
  {
    if e.ReaderInput? {
      ReaderProduces(s, e);
    } else if e.WriterInput? || e.WriterEmpty? {
      WriterProduces(s, e);
    } else {
      OthersProduceNothing(s, e);
    }
  }

  /** The writer leaves exactly on a failed write or the end of its stream, and its
      verdict is `Ok` exactly when no write failed. */
  lemma WriterVerdictIff(flight: seq<Byte>, sizes: seq<nat>, es: seq<Event>)
    requires ValidRun(Start(flight, sizes), es)
    ensures var s := Final(Start(flight, sizes), es);
            && (s.WriterLeft() <==> exists i :: 0 <= i < |es| && WriterEnds(es[i]))
            && (s.WriterLeft() ==> (s.writer.ok <==> forall i :: 0 <= i < |es| ==> !WriteFails(es[i])))
  {
    WriterRun(Start(flight, sizes), es);
  }

  // ---------------------------------------------------------------- the receive verdict

  /** The last buffer the reader was given, `last` if the run holds none. */
  function LastBuffer(last: seq<Pass>, es: seq<Event>): seq<Pass>
    decreases |es|
  {
    if es == [] then last else LastBuffer(if es[0].ReaderInput? then es[0].passes else last, es[1..])
  }

  predicate Judged(s: Sys, last: seq<Pass>) {
    && (s.reader.Delivering? ==> (s.reader.failed <==> BufferFails(last)))
    && (s.ReaderLeft() ==> (s.reader.ok <==> s.link.conn.peerClosed && !BufferFails(last)))
  }

  lemma JudgedStep(s: Sys, e: Event, last: seq<Pass>)
    requires Inv(s) && Judged(s, last) && Enabled(s, e)
    ensures Judged(Step(s, e), if e.ReaderInput? then e.passes else last)
  {
    hide BufferFails;
    if e.ReaderInput? {
      FeedFails(s.link, e.passes, s.cleanClose);
      if Step(s, e).ReaderLeft() {
        VerdictOfBuffer(s, e.passes, e.eof, e.ended);
      }
    } else if e.Delivered? {
      VerdictAfter(s.(consumer := GiveUp(s.consumer, s.reader.left)),
                   s.reader.failed, s.reader.clean, s.reader.ended);
    } else if e.WriterInput? || e.WriterEmpty? {
      WriterLeavesReader(s, e);
      WriterProduces(s, e);
    }
  }

  lemma {:induction false} JudgedRun(s: Sys, es: seq<Event>, last: seq<Pass>)
    requires Inv(s) && Judged(s, last) && ValidRun(s, es)
    ensures Judged(Final(s, es), LastBuffer(last, es))
    decreases |es|
  {
    if es != [] {
      hide Inv, Judged, Step, Enabled;
      JudgedStep(s, es[0], last);
      InvStep(s, es[0]);
      JudgedRun(Step(s, es[0]), es[1..], if es[0].ReaderInput? then es[0].passes else last);
    }
  }

  /** The receive verdict by the events alone: `Ok` exactly when some packet of the run
      carried the peer's close_notify and the last buffer did not fail. */
  lemma VerdictOfRun(flight: seq<Byte>, sizes: seq<nat>, es: seq<Event>)
    requires ValidRun(Start(flight, sizes), es) && Final(Start(flight, sizes), es).ReaderLeft()
    ensures Final(Start(flight, sizes), es).reader.ok <==>
              SomeCloses(AllPackets(es)) && !BufferFails(LastBuffer([], es))
  {
    StartInv(flight, sizes);
    JudgedRun(Start(flight, sizes), es, []);
    ConnectionExplained(flight, sizes, es);
  }

  /** What the reader does with a buffer: it delivers the plaintext, if there is any, and
      then goes on reading unless the buffer failed, the peer closed or the transport
      ended. */
  lemma BufferOutcome(s: Sys, passes: seq<Pass>, eof: bool, ended: bool)
    requires Reachable(s) && s.reader == Reading
    ensures var t := Step(s, ReaderInput(passes, eof, ended));
            && (t.reader.Delivering? <==> PlainOf(Ran(passes)) != [])
            && (t.reader.Delivering? ==>
                  && t.reader.left == PlainOf(Ran(passes)) && t.reader.ended == ended
                  && (t.reader.failed <==> BufferFails(passes)))
            && (!t.reader.Delivering? ==>
                  if BufferFails(passes) || t.link.conn.peerClosed || ended then t.ReaderLeft()
                  else t.reader == Reading)
  {
    hide BufferFails, Reachable;
    ReachableInv(s);
    FeedFails(s.link, passes, s.cleanClose);
    FeedBecomes(s.link, passes, s.cleanClose);
    FeedHolds(Past(s), s.extracted, s.link, passes, s.cleanClose);
    assert s.link.conn.plaintext + PlainOf(Ran(passes)) == PlainOf(Ran(passes));
  }

  /** A read that brings no byte changes nothing unless the transport ended. */
  lemma EmptyOutcome(s: Sys, ended: bool)
    requires Reachable(s) && s.reader == Reading
    ensures var t := Step(s, ReaderEmpty(ended));
            if ended then t.ReaderLeft() && !t.reader.ok && !t.cell.sender else t == s
  {
    ReachableInv(s);
  }

  /** A delivery can always go on, and a consumer that is gone does not hold it up. */
  lemma DeliveryProgress(s: Sys)
    requires s.reader.Delivering?
    ensures Enabled(s, Delivered) <==> s.reader.left == [] || s.consumer.gone
    ensures !Enabled(s, Delivered) ==>
              Enabled(s, Deliver(1)) && |Step(s, Deliver(1)).InDelivery()| < |s.InDelivery()|
  {}

  lemma DeliveredOutcome(s: Sys)
    requires Reachable(s) && Enabled(s, Delivered)
    ensures var t := Step(s, Delivered);
            if s.reader.failed || s.link.conn.peerClosed || s.reader.ended then t.ReaderLeft() else t.reader == Reading
  {
    ReachableInv(s);
  }

  /** So a buffer that fails is reported: at once, or as soon as its plaintext is
      delivered, the reader leaves with an error, and the handshake signal is then not
      pending any more. */
  lemma FailureIsReported(s: Sys, passes: seq<Pass>, eof: bool, ended: bool)
    requires Reachable(s) && s.reader == Reading && BufferFails(passes)
    ensures var t := Step(s, ReaderInput(passes, eof, ended));
            if PlainOf(Ran(passes)) == [] then t.ReaderLeft() && !t.reader.ok && !t.cell.sender
            else t.reader.Delivering? && t.reader.failed
  {
    var e := ReaderInput(passes, eof, ended);
    BufferOutcome(s, passes, eof, ended);
    ReachableStep(s, e);
    if Step(s, e).ReaderLeft() {
      VerdictIff(s, e);
      SignalAtMostOnce(Step(s, e));
      ReachableInv(Step(s, e));
    }
  }

  lemma DeliveredFailureIsReported(s: Sys)
    requires Reachable(s) && Enabled(s, Delivered) && s.reader.failed
    ensures var t := Step(s, Delivered); t.ReaderLeft() && !t.reader.ok && !t.cell.sender
  {
    DeliveredOutcome(s);
    VerdictIff(s, Delivered);
    ReachableStep(s, Delivered);
    ReachableInv(Step(s, Delivered));
  }
}
