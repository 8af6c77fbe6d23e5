/** What the pump promises over every interleaving of its tasks, its consumer and
    its transport. */
module PumpTheorems {
  import opened Basics
  import opened Pump
  import opened PumpInvariants

  /** Reachable from the spawned state by some run. */
  ghost predicate Reachable(s: Sys) {
    exists flight, sizes, es :: ValidRun(Start(flight, sizes), es) && s == Final(Start(flight, sizes), es)
  }

  lemma ReachableInv(s: Sys)
    requires Reachable(s)
    ensures Inv(s)
  {
    var flight, sizes, es :| ValidRun(Start(flight, sizes), es) && s == Final(Start(flight, sizes), es);
    StartInv(flight, sizes);
    InvRun(Start(flight, sizes), es);
  }

  // ---------------------------------------------------------------- bytes

  /** Ciphertext: what rustls produced is, in order, on the stream, being written,
      queued, or still pending in rustls; nothing is given up while the transport reads. */
  lemma CiphertextConserved(s: Sys)
    requires Reachable(s)
    ensures s.link.conn.produced ==
            s.transport.done + s.transport.lost + s.InTransmission() + (Flat(s.link.queue) + s.link.conn.pending)
    ensures !s.transport.gone ==> s.transport.lost == []
    ensures s.transport.done <= s.link.conn.produced
  {
    ReachableInv(s);
  }

  /** Cleartext: while the consumer reads, everything decrypted so far has been
      delivered in order by the time a verdict can be seen. */
  lemma CleartextBeforeVerdict(s: Sys)
    requires Reachable(s)
    ensures s.link.conn.decrypted == s.consumer.done + s.consumer.lost + s.InDelivery()
    ensures s.ReaderLeft() && !s.consumer.gone ==> s.consumer.done == s.link.conn.decrypted
  {
    ReachableInv(s);
  }

  // ---------------------------------------------------------------- truncation

  /** Whether the last buffer the reader processed failed, when `e` makes it leave. */
  predicate LastBufferFailed(s: Sys, e: Event) {
    match e
    case ReaderInput(passes, _, _) => BufferFails(passes)
    case Delivered => s.reader.Delivering? && s.reader.failed
    case _ => false
  }

  lemma VerdictAfter(s: Sys, failed: bool, clean: bool, ended: bool)
    requires (clean ==> s.link.conn.peerClosed) && (s.link.conn.peerClosed && !failed ==> clean)
    ensures var t := AfterBuffer(s, failed, clean, ended);
            && t.link.conn == s.link.conn
            && (t.ReaderLeft() && !s.ReaderLeft() ==> (t.reader.ok <==> s.link.conn.peerClosed && !failed))
  {}

  lemma VerdictOfBuffer(s: Sys, passes: seq<Pass>, eof: bool, ended: bool)
    requires Inv(s) && s.reader == Reading && ReaderStep(s, passes, eof, ended).ReaderLeft()
    ensures var t := ReaderStep(s, passes, eof, ended);
            t.reader.ok <==> t.link.conn.peerClosed && !Feed(s.link, passes, s.cleanClose).failed
  {
    FeedHolds(Past(s), s.extracted, s.link, passes, s.cleanClose);
    var fed := Feed(s.link, passes, s.cleanClose);
    var conn := fed.link.conn;
    var t := s.(link := fed.link, cell := Check(s.cell, conn.handshaking));
    VerdictAfter(t, fed.failed, fed.clean || (eof && conn.peerClosed), ended);
  }

  /** The receive verdict is `Ok` exactly when the peer's close_notify was seen and
      the last buffer did not fail; so a transport close without it is always an error. */
  lemma VerdictIff(s: Sys, e: Event)
    requires Reachable(s) && Enabled(s, e) && !s.ReaderLeft() && Step(s, e).ReaderLeft()
    ensures Step(s, e).reader.ok <==> Step(s, e).link.conn.peerClosed && !LastBufferFailed(s, e)
  {
    hide Reachable, BufferFails, Feed;
    ReachableInv(s);
    if e.ReaderInput? {
      VerdictOfBuffer(s, e.passes, e.eof, e.ended);
      FeedFails(s.link, e.passes, s.cleanClose);
    } else if e.Delivered? {
      VerdictAfter(s.(consumer := GiveUp(s.consumer, s.reader.left)),
                   s.reader.failed, s.reader.clean, s.reader.ended);
    }
  }

  /** A transport that ends makes the reader leave, at once or after the delivery. */
  lemma EndedLeaves(s: Sys, e: Event)
    requires Enabled(s, e)
    requires (e.ReaderInput? && e.ended) || e == ReaderEmpty(true) || (e == Delivered && s.reader.ended)
    ensures Step(s, e).ReaderLeft() || (Step(s, e).reader.Delivering? && Step(s, e).reader.ended)
  {}

  /** A verdict, once there, does not change. */
  lemma {:induction false} VerdictStays(s: Sys, es: seq<Event>)
    requires s.ReaderLeft() && ValidRun(s, es)
    ensures Final(s, es).ReaderLeft() && Final(s, es).reader.ok == s.reader.ok
    decreases |es|
  {
    if es != [] {
      LeftStays(s, es[0]);
      VerdictStays(Step(s, es[0]), es[1..]);
    }
  }

  lemma WriterLeavesReader(s: Sys, e: Event)
    requires (e.WriterInput? || e.WriterEmpty?) && Enabled(s, e)
    ensures var t := Step(s, e);
            && t.reader == s.reader && t.link.conn.handshaking == s.link.conn.handshaking
            && (s.link.conn.handshaking ==> t.cell.sender == s.cell.sender)
  {}

  /** Once the reader has left, nothing touches the handshake or its signal. */
  lemma LeftStays(s: Sys, e: Event)
    requires s.ReaderLeft() && Enabled(s, e)
    ensures Step(s, e).ReaderLeft() && Step(s, e).reader.ok == s.reader.ok
    ensures Step(s, e).link.conn.handshaking == s.link.conn.handshaking
    ensures s.link.conn.handshaking ==> Step(s, e).cell.sender == s.cell.sender
  {
    if e.WriterInput? || e.WriterEmpty? {
      WriterLeavesReader(s, e);
    } else {
      assert !e.ReaderInput?;
    }
  }

  /** The flag is down at every loop head, so the clean-close test on the stream
      status never succeeds: a status that ends the loop there reports truncation. */
  lemma LateCloseIsDead(s: Sys)
    requires Reachable(s) && s.reader == Reading
    ensures !s.cleanClose
    ensures Step(s, ReaderEmpty(true)) == ReaderFails(s)
  {
    ReachableInv(s);
  }

  // ---------------------------------------------------------------- handshake signal

  /** The signal is raised at most once; `Ok` only after the handshake, `Err` only
      during it; a reader that left with an error has raised it. */
  lemma SignalAtMostOnce(s: Sys)
    requires Reachable(s)
    ensures s.cell.oks + s.cell.errs <= 1
    ensures s.cell.oks == 1 <==> !s.link.conn.handshaking
    ensures s.cell.errs == 1 ==> s.link.conn.handshaking
    ensures s.ReaderLeft() && !s.reader.ok ==> s.cell.oks + s.cell.errs == 1
  {
    ReachableInv(s);
  }

  /** Exactly once fails in exactly one way: the reader left on a clean close while
      still handshaking. */
  lemma SignalMissingIff(s: Sys)
    requires Reachable(s) && s.ReaderLeft()
    ensures s.cell.oks + s.cell.errs == 0 <==> s.reader.ok && s.link.conn.handshaking
  {
    ReachableInv(s);
  }

  /** Then it is never raised, whatever happens later: the call that waits for it,
      which keeps a sender alive itself, waits for ever. */
  lemma {:induction false} SignalMissingForEver(s: Sys, es: seq<Event>)
    requires s.ReaderLeft() && s.link.conn.handshaking && ValidRun(s, es)
    ensures Final(s, es).cell.sender == s.cell.sender
    decreases |es|
  {
    if es != [] {
      LeftStays(s, es[0]);
      SignalMissingForEver(Step(s, es[0]), es[1..]);
    }
  }

  /** And it happens: a close_notify in the first buffer, before the handshake ends. */
  lemma SignalCanBeMissing()
    ensures var e := ReaderInput([Processed(Packets([], [], true, false, []))], false, false);
            && ValidRun(Start([], []), [e])
            && var s := Final(Start([], []), [e]);
               s.reader == ReaderVerdict(true) && s.link.conn.handshaking && s.cell.sender
  {
    var p := Packets([], [], true, false, []);
    var e := ReaderInput([Processed(p)], false, false);
    var s := Start([], []);
    var l := s.link;
    var m := DrainLink(l.(conn := Process(l.conn, p)), p.sizes);
    assert [Processed(p)][1..] == [];
    assert Feed(l, [Processed(p)], false) == Feed(m, [], true);
    assert [e][1..] == [];
    assert Final(s, [e]) == Step(s, e);
  }

  // ---------------------------------------------------------------- stream ends

  /** Streams never wait on futures: a task that left its loop has released every end
      it owns, whether or not its verdict is ever read. */
  lemma EndsReleased(s: Sys)
    requires Reachable(s)
    ensures s.ReaderLeft() ==> !s.ends.ciphertextIn && !s.ends.cleartextOut && !s.ends.readerSink
    ensures s.WriterLeft() ==> !s.ends.cleartextIn && !s.ends.writerSink
  {
    ReachableInv(s);
  }

  /** The ciphertext stream closes exactly when both producers have gone and the
      queue is drained. */
  lemma ClosesIff(s: Sys)
    requires Reachable(s)
    ensures Enabled(s, TransmitNext) && Step(s, TransmitNext).transmit == StreamClosed <==>
            s.transmit == Idle && s.link.queue == [] && s.ReaderLeft() && s.WriterLeft()
    ensures s.transmit == StreamClosed ==>
              && s.link.queue == [] && s.ReaderLeft() && s.WriterLeft()
              && s.link.conn.produced == s.transport.done + s.transport.lost + s.link.conn.pending
  {
    ReachableInv(s);
  }

  /** How many of `n` pending bytes a drain leaves behind. */
  function Left(n: nat, sizes: seq<nat>): nat
    decreases |sizes|
  {
    if n == 0 || sizes == [] || sizes[0] == 0 then n
    else Left(if sizes[0] <= n then n - sizes[0] else 0, sizes[1..])
  }

  function LeftByPasses(n: nat, passes: seq<Pass>): nat
    decreases |passes|
  {
    if passes == [] then n
    else
      match passes[0]
      case ReadNothing => n
      case ReadFailed => n
      case Processed(p) => LeftByPasses(Left(n + |p.out|, p.sizes), passes[1..])
      case ProcessFailed(p) => Left(n + |p.out|, p.sizes)
  }

  function LeftAtStatus(n: nat, ended: bool, closing: seq<Byte>, sizes: seq<nat>): nat {
    if ended then Left(n + |closing|, sizes) else n
  }

  /** What an event leaves pending, by the sizes it carries alone. */
  function LeftBy(n: nat, e: Event): nat {
    match e
    case ReaderInput(passes, _, _) => LeftByPasses(n, passes)
    case WriterInput(ok, out, sizes, ended, closing, closeSizes) =>
      if ok then LeftAtStatus(Left(n + |out|, sizes), ended, closing, closeSizes) else n + |out|
    case WriterEmpty(ended, closing, closeSizes) => LeftAtStatus(n, ended, closing, closeSizes)
    case _ => n
  }

  function LeftByRun(n: nat, es: seq<Event>): nat
    decreases |es|
  {
    if es == [] then n else LeftByRun(LeftBy(n, es[0]), es[1..])
  }

  lemma {:induction false} DrainLeaves(pending: seq<Byte>, queue: seq<seq<Byte>>, sizes: seq<nat>)
    ensures |Drain(pending, queue, sizes).0| == Left(|pending|, sizes)
    decreases |sizes|
  {
    if pending != [] && sizes != [] && sizes[0] != 0 {
      var n := if sizes[0] <= |pending| then sizes[0] else |pending|;
      DrainLeaves(pending[n..], queue + [pending[..n]], sizes[1..]);
    }
  }

  lemma {:induction false} FeedLeaves(l: Link, passes: seq<Pass>, clean: bool)
    ensures |Feed(l, passes, clean).link.conn.pending| == LeftByPasses(|l.conn.pending|, passes)
    decreases |passes|
  {
    if passes != [] && (passes[0].Processed? || passes[0].ProcessFailed?) {
      var p := passes[0].p;
      var m := l.(conn := Process(l.conn, p));
      DrainLeaves(m.conn.pending, m.queue, p.sizes);
      var n := DrainLink(m, p.sizes);
      if passes[0].Processed? {
        FeedLeaves(n, passes[1..], clean || n.conn.peerClosed);
      }
    }
  }

  lemma ReaderLeaves(s: Sys, passes: seq<Pass>, eof: bool, ended: bool)
    ensures |ReaderStep(s, passes, eof, ended).link.conn.pending| == LeftByPasses(|s.link.conn.pending|, passes)
  {
    FeedLeaves(s.link, passes, s.cleanClose);
  }

  lemma CloseLeaves(s: Sys, ended: bool, closing: seq<Byte>, sizes: seq<nat>)
    ensures |WriterAtStatus(s, ended, closing, sizes).link.conn.pending| ==
            LeftAtStatus(|s.link.conn.pending|, ended, closing, sizes)
  {
    DrainLeaves(s.link.conn.pending + closing, s.link.queue, sizes);
  }

  lemma StepLeaves(s: Sys, e: Event)
    requires Enabled(s, e)
    ensures |Step(s, e).link.conn.pending| == LeftBy(|s.link.conn.pending|, e)
  {
    match e
    case ReaderInput(passes, eof, ended) => ReaderLeaves(s, passes, eof, ended);
    case WriterInput(ok, out, sizes, ended, closing, closeSizes) =>
      DrainLeaves(s.link.conn.pending + out, s.link.queue, sizes);
      CloseLeaves(WriterStep(s, out, sizes), ended, closing, closeSizes);
    case WriterEmpty(ended, closing, closeSizes) => CloseLeaves(s, ended, closing, closeSizes);
    case _ =>
  }

  lemma {:induction false} RunLeaves(s: Sys, es: seq<Event>)
    requires ValidRun(s, es)
    ensures |Final(s, es).link.conn.pending| == LeftByRun(|s.link.conn.pending|, es)
    decreases |es|
  {
    if es != [] {
      StepLeaves(s, es[0]);
      RunLeaves(Step(s, es[0]), es[1..]);
    }
  }

  /** At closure everything rustls produced went to the stream, or was given up by a
      transport that had gone, if and only if the drains of the run left nothing. */
  lemma ClosesCompleteIff(flight: seq<Byte>, sizes: seq<nat>, es: seq<Event>)
    requires ValidRun(Start(flight, sizes), es) && Final(Start(flight, sizes), es).transmit == StreamClosed
    ensures var s := Final(Start(flight, sizes), es);
            && (s.transport.done + s.transport.lost == s.link.conn.produced <==>
                LeftByRun(Left(|flight|, sizes), es) == 0)
            && (!s.transport.gone && LeftByRun(Left(|flight|, sizes), es) == 0 ==>
                  s.transport.done == s.link.conn.produced)
  {
    var s := Final(Start(flight, sizes), es);
    assert Reachable(s);
    ClosesIff(s);
    CiphertextConserved(s);
    DrainLeaves(flight, [], sizes);
    RunLeaves(Start(flight, sizes), es);
    assert |s.link.conn.produced| == |s.transport.done + s.transport.lost| + |s.link.conn.pending|;
  }

  lemma {:induction false} Thrice(s: Sys, a: Event, b: Event, c: Event)
    requires Enabled(s, a) && Enabled(Step(s, a), b) && Enabled(Step(Step(s, a), b), c)
    ensures ValidRun(s, [a, b, c]) && Final(s, [a, b, c]) == Step(Step(Step(s, a), b), c)
  {
    var es := [a, b, c];
    var u := Step(Step(s, a), b);
    assert es[1..] == [b, c] && es[1..][1..] == [c] && [c][1..] == [];
    assert ValidRun(Step(u, c), []) && ValidRun(u, [c]);
    assert ValidRun(Step(s, a), [b, c]);
    assert Final(u, [c]) == Final(Step(u, c), []);
    assert Final(Step(s, a), [b, c]) == Final(u, [c]);
  }

  /** Both producers go with the stream closed on a reading transport, and none of
      `bytes`, all that rustls ever produced, was emitted. */
  predicate ClosedEmpty(s: Sys, bytes: seq<Byte>) {
    && s.transmit == StreamClosed && !s.transport.gone && s.transport.done == []
    && s.link.conn.produced == bytes && s.link.conn.pending == bytes
  }

  /** Bytes left behind by a drain that breaks: the first flight is never taken over. */
  lemma BrokenDrainLeavesBytes(flight: seq<Byte>)
    requires flight != []
    ensures var es := [WriterEmpty(true, [], []), ReaderEmpty(true), TransmitNext];
            ValidRun(Start(flight, []), es) && ClosedEmpty(Final(Start(flight, []), es), flight)
  {
    var s := Start(flight, []);
    assert flight + [] == flight;
    Thrice(s, WriterEmpty(true, [], []), ReaderEmpty(true), TransmitNext);
  }

  /** Bytes left behind by a write that fails: what it produced is not drained. */
  lemma FailedWriteLeavesBytes(out: seq<Byte>)
    requires out != []
    ensures var es := [WriterInput(false, out, [], false, [], []), ReaderEmpty(true), TransmitNext];
            ValidRun(Start([], []), es) && ClosedEmpty(Final(Start([], []), es), out)
  {
    var s := Start([], []);
    assert [] + out == out;
    Thrice(s, WriterInput(false, out, [], false, [], []), ReaderEmpty(true), TransmitNext);
  }

  predicate DrainsPasses(passes: seq<Pass>)
    decreases |passes|
  {
    passes == [] ||
    match passes[0]
    case ReadNothing => true
    case ReadFailed => true
    case Processed(p) => Left(|p.out|, p.sizes) == 0 && DrainsPasses(passes[1..])
    case ProcessFailed(p) => Left(|p.out|, p.sizes) == 0
  }

  /** Each drain of the event takes all it finds, and a failed write left no output. */
  predicate DrainsAll(e: Event) {
    match e
    case ReaderInput(passes, _, _) => DrainsPasses(passes)
    case WriterInput(ok, out, sizes, ended, closing, closeSizes) =>
      if ok then Left(|out|, sizes) == 0 && (ended ==> Left(|closing|, closeSizes) == 0) else out == []
    case WriterEmpty(ended, closing, closeSizes) => ended ==> Left(|closing|, closeSizes) == 0
    case _ => true
  }

  lemma {:induction false} DrainsPassesLeave(passes: seq<Pass>)
    requires DrainsPasses(passes)
    ensures LeftByPasses(0, passes) == 0
    decreases |passes|
  {
    if passes != [] && passes[0].Processed? {
      DrainsPassesLeave(passes[1..]);
    }
  }

  lemma {:induction false} DrainsAllLeave(es: seq<Event>)
    requires forall e :: e in es ==> DrainsAll(e)
    ensures LeftByRun(0, es) == 0
    decreases |es|
  {
    if es != [] {
      assert DrainsAll(es[0]);
      if es[0].ReaderInput? {
        DrainsPassesLeave(es[0].passes);
      }
      DrainsAllLeave(es[1..]);
    }
  }

  /** So when every drain ran to its end, no write failed with output left and the
      transport read on, the closed stream carried all that rustls produced. */
  lemma ClosesComplete(flight: seq<Byte>, sizes: seq<nat>, es: seq<Event>)
    requires ValidRun(Start(flight, sizes), es) && Final(Start(flight, sizes), es).transmit == StreamClosed
    requires Left(|flight|, sizes) == 0 && forall e :: e in es ==> DrainsAll(e)
    ensures var s := Final(Start(flight, sizes), es);
            s.link.conn.pending == [] && (!s.transport.gone ==> s.transport.done == s.link.conn.produced)
  {
    DrainsAllLeave(es);
    ClosesCompleteIff(flight, sizes, es);
    DrainLeaves(flight, [], sizes);
    RunLeaves(Start(flight, sizes), es);
  }

  function QueueCost(queue: seq<seq<Byte>>): nat {
    if queue == [] then 0 else |queue[0]| + 2 + QueueCost(queue[1..])
  }

  /** The transmit steps left once nobody can add to the queue. */
  function TransmitCost(s: Sys): nat {
    match s.transmit
    case StreamClosed => 0
    case Idle => QueueCost(s.link.queue) + 1
    case Sending(rest) => QueueCost(s.link.queue) + |rest| + 2
  }

  function TransmitSteps(es: seq<Event>): nat {
    if es == [] then 0 else (if es[0].Transmits() then 1 else 0) + TransmitSteps(es[1..])
  }

  lemma TransmitCostNext(s: Sys)
    requires Enabled(s, TransmitNext)
    ensures TransmitCost(Step(s, TransmitNext)) < TransmitCost(s)
  {}

  lemma TransmitCostSend(s: Sys, e: Event)
    requires (e.TransmitSome? || e.TransmitDone?) && Enabled(s, e)
    ensures TransmitCost(Step(s, e)) < TransmitCost(s)
  {}

  /** With both loops left, every step but a transmit step leaves the queue and the
      transmit task alone. */
  lemma OthersIdle(s: Sys, e: Event)
    requires s.ReaderLeft() && s.WriterLeft() && Enabled(s, e)
    ensures Step(s, e).ReaderLeft() && Step(s, e).WriterLeft()
    ensures !e.Transmits() ==> Step(s, e).link.queue == s.link.queue && Step(s, e).transmit == s.transmit
  {
    assert !e.ReaderInput? && !e.WriterInput? && !e.WriterEmpty? && !e.Delivered?;
  }

  lemma TransmitCostStep(s: Sys, e: Event)
    requires s.ReaderLeft() && s.WriterLeft() && Enabled(s, e)
    ensures Step(s, e).ReaderLeft() && Step(s, e).WriterLeft()
    ensures if e.Transmits() then TransmitCost(Step(s, e)) < TransmitCost(s)
            else TransmitCost(Step(s, e)) == TransmitCost(s)
  {
    OthersIdle(s, e);
    if e.TransmitNext? {
      TransmitCostNext(s);
    } else if e.Transmits() {
      TransmitCostSend(s, e);
    }
  }

  /** Both loops left: however verdict reads, drops and transmit steps interleave, at
      most `TransmitCost` transmit steps remain. */
  lemma {:induction false} TransmitBounded(s: Sys, es: seq<Event>)
    requires s.ReaderLeft() && s.WriterLeft() && ValidRun(s, es)
    ensures TransmitSteps(es) <= TransmitCost(s)
    decreases |es|
  {
    if es != [] {
      TransmitCostStep(s, es[0]);
      TransmitBounded(Step(s, es[0]), es[1..]);
    }
  }

  /** And until the stream is closed one is always enabled, so it closes. */
  lemma TransmitProgress(s: Sys)
    requires Reachable(s) && s.ReaderLeft() && s.WriterLeft()
    ensures s.transmit == StreamClosed <==> forall e: Event :: e.Transmits() ==> !Enabled(s, e)
  {
    ReachableInv(s);
    if s.transmit == Idle {
      assert Enabled(s, TransmitNext);
    } else if s.transmit.Sending? {
      assert Enabled(s, TransmitDone) || Enabled(s, TransmitSome(1));
    }
  }

  lemma ReachableStep(s: Sys, e: Event)
    requires Reachable(s) && Enabled(s, e)
    ensures Reachable(Step(s, e))
  {
    var flight, sizes, es :| ValidRun(Start(flight, sizes), es) && s == Final(Start(flight, sizes), es);
    RunSnoc(Start(flight, sizes), es, e);
    assert Step(s, e) == Final(Start(flight, sizes), es + [e]);
  }

  lemma {:induction false} RunSnoc(s: Sys, es: seq<Event>, e: Event)
    requires ValidRun(s, es) && Enabled(Final(s, es), e)
    ensures ValidRun(s, es + [e]) && Final(s, es + [e]) == Step(Final(s, es), e)
    decreases |es|
  {
    if es == [] {
      assert es + [e] == [e] && [e][1..] == [];
      assert ValidRun(Step(s, e), []) && Final(Step(s, e), []) == Step(s, e);
    } else {
      assert (es + [e])[1..] == es[1..] + [e];
      RunSnoc(Step(s, es[0]), es[1..], e);
    }
  }

  /** The two together: with both loops left, transmit steps alone, no more of them than
      the queue calls for, bring the stream to its close; nobody need read a verdict. */
  lemma {:induction false} ReachesClosure(s: Sys) returns (es: seq<Event>)
    requires Reachable(s) && s.ReaderLeft() && s.WriterLeft()
    ensures ValidRun(s, es) && |es| <= TransmitCost(s) && (forall e :: e in es ==> e.Transmits())
    ensures Final(s, es).transmit == StreamClosed
    decreases TransmitCost(s)
  {
    hide Reachable;
    TransmitProgress(s);
    if s.transmit == StreamClosed {
      es := [];
    } else {
      var e: Event :| e.Transmits() && Enabled(s, e);
      TransmitCostStep(s, e);
      ReachableStep(s, e);
      var rest := ReachesClosure(Step(s, e));
      es := [e] + rest;
      assert es[1..] == rest;
    }
  }
}
