/** The shared record of the send direction as the object it is: each guest call and
    each of the task's critical sections updates it in place. */
module SendControl {
  import opened Basics
  import opened SendDirection

  class WriteCtl {
    var queued: seq<Byte>
    var flushing: bool
    var shutdown: bool
    var state: StreamState

    function View(): Inner
      reads this
    {
      Inner(queued, flushing, shutdown, state)
    }

    constructor ()
      ensures View() == FRESH
    {
      queued, flushing, shutdown, state := [], false, false, Open;
    }

    /** On anything but acceptance the record is untouched; otherwise the caller
        notifies the task once the lock is released. */
    method Write(bytes: seq<Byte>) returns (reply: Reply)
      modifies this
      ensures (View(), reply) == WriteSection(old(View()), bytes)
      ensures old(state) == Failed ==> reply == LastOperationFailed
      ensures old(state) == Closed || (old(state) == Open && old(shutdown)) ==> reply == StreamClosed
      ensures old(state) == Open && !old(shutdown) ==>
                reply == if bytes == [] || (!old(flushing) && |old(queued)| + |bytes| <= 16384) then Accepted else Trap
      ensures reply == Accepted ==> queued == old(queued) + bytes && flushing == old(flushing)
      ensures |old(queued)| <= CHUNK ==> |queued| <= CHUNK
      ensures reply != Accepted ==> View() == old(View())
    {
      if state != Open {
        return CheckState(state);
      }
      if shutdown {
        return StreamClosed;
      }
      var permitted := 0;
      if !flushing && |queued| <= CHUNK {
        permitted := CHUNK - |queued|;
      }
      if |bytes| > permitted {
        return Trap;
      }
      queued := queued + bytes;
      reply := Accepted;
    }

    method FlushCall() returns (reply: Reply)
      modifies this`flushing
      ensures (View(), reply) == FlushSection(old(View()))
      ensures old(state) == Failed ==> reply == LastOperationFailed
      ensures old(state) == Closed || (old(state) == Open && old(shutdown)) ==> reply == StreamClosed
      ensures reply == Accepted <==> old(state == Open && !shutdown)
      ensures flushing == (old(flushing) || reply == Accepted)
    {
      if state != Open {
        return CheckState(state);
      }
      if shutdown {
        return StreamClosed;
      }
      flushing := true;
      reply := Accepted;
    }

    /** Whatever is offered is exactly what a write may use at once. */
    method CheckWrite() returns (reply: Reply)
      ensures reply == CheckWriteSection(View())
      ensures state == Failed ==> reply == LastOperationFailed
      ensures state == Closed || (state == Open && shutdown) ==> reply == StreamClosed
      ensures state == Open && !shutdown ==> reply.Permitted? && reply.n <= 16384
      ensures state == Open && !shutdown && !flushing && |queued| <= 16384 ==> reply.n + |queued| == 16384
      ensures reply.Permitted? ==>
                forall bytes: seq<Byte> :: WriteSection(View(), bytes).1 == Accepted <==> |bytes| <= reply.n
    {
      if state != Open {
        return CheckState(state);
      }
      if shutdown {
        return StreamClosed;
      }
      if flushing || |queued| > CHUNK {
        return Permitted(0);
      }
      reply := Permitted(CHUNK - |queued|);
    }

    method RequestShutdown() returns (wake: bool)
      modifies this`shutdown
      ensures (View(), wake) == ShutdownSection(old(View()))
      ensures wake <==> old(state == Open && !shutdown)
      ensures state == Open ==> shutdown
    {
      if state != Open || shutdown {
        return false;
      }
      shutdown := true;
      wake := true;
    }

    /** Takes the whole queue when there is anything to do. */
    method TakeWork() returns (work: Work)
      modifies this`queued
      ensures (View(), work) == NextWork(old(View()))
      ensures work == End <==> old(state) != Open
      ensures work == Wait <==> old(state) == Open && old(queued) == [] && !old(flushing) && !old(shutdown)
      ensures work.Io? ==> work == Io(old(queued), flushing, shutdown) && queued == []
      ensures !work.Io? ==> queued == old(queued)
    {
      if state != Open {
        return End;
      }
      if queued == [] && !flushing && !shutdown {
        return Wait;
      }
      work := Io(queued, flushing, shutdown);
      queued := [];
    }

    method Commit(flushed: bool, closed: bool, ok: bool) returns (ends: bool)
      modifies this`flushing, this`state
      ensures View() == CommitSection(old(View()), flushed, closed, ok)
      ensures ends <==> !ok || closed
      ensures state == if !ok then Failed else if closed then Closed else old(state)
      ensures flushing == (old(flushing) && !(ok && flushed && queued == []))
    {
      if ok {
        if flushed && queued == [] {
          flushing := false;
        }
        if closed {
          state := Closed;
          return true;
        }
        ends := false;
      } else {
        state := Failed;
        ends := true;
      }
    }
  }

  // ---------------------------------------------------------------- one round of the task

  /** The TLS write half: its operations get as far as they are told to. */
  class TlsHalf {
    ghost var wire: Log<WireEvent>

    constructor ()
      ensures wire == Nil
    {
      wire := Nil;
    }

    method WriteAll(chunk: seq<Byte>, sent: nat) returns (ok: bool)
      requires sent <= |chunk|
      modifies this
      ensures ok <==> sent == |chunk|
      ensures wire == Snoc(old(wire), Data(chunk[..sent]))
    {
      wire := Snoc(wire, Data(chunk[..sent]));
      ok := sent == |chunk|;
    }

    method Flush(succeeds: bool) returns (ok: bool)
      modifies this
      ensures ok == succeeds && wire == if ok then Snoc(old(wire), FlushEvent) else old(wire)
    {
      if succeeds {
        wire := Snoc(wire, FlushEvent);
      }
      ok := succeeds;
    }

    method Shutdown(issues: bool, succeeds: bool) returns (ok: bool)
      requires succeeds ==> issues
      modifies this
      ensures ok == succeeds && wire == if issues then Snoc(old(wire), CloseNotify) else old(wire)
    {
      if issues {
        wire := Snoc(wire, CloseNotify);
      }
      ok := succeeds;
    }
  }

  /** How far each operation of a round would get. */
  datatype Reach = Reach(sent: nat, flushes: bool, issues: bool, shutsDown: bool)

  /** Write, flush if asked, close if asked, each only after the one before succeeded;
      then the outcome is committed.  A round that did not fail put the whole chunk on
      the wire, with the flush it was asked for behind it and close_notify last; a round
      that failed left a prefix of it there and the direction failed. */
  method IoRound(ctl: WriteCtl, half: TlsHalf, work: Work, reach: Reach) returns (ends: bool)
    requires work.Io? && reach.sent <= |work.chunk| && (reach.shutsDown ==> reach.issues)
    modifies ctl`flushing, ctl`state, half
    ensures var ok := reach.sent == |work.chunk| && (work.flushing ==> reach.flushes)
                      && (work.shutdown ==> reach.shutsDown);
            && ctl.View() == CommitSection(old(ctl.View()), work.flushing, work.shutdown, ok)
            && (ends <==> !ok || work.shutdown)
            && (ok ==> WireBytes(half.wire) == old(WireBytes(half.wire)) + work.chunk)
            && (ok && work.flushing ==> FlushedLast(half.wire))
            && (ok && work.shutdown ==> half.wire.Snoc? && half.wire.last == CloseNotify)
            && (!ok ==> ctl.state == Failed)
    ensures WireBytes(half.wire) == old(WireBytes(half.wire)) + work.chunk[..reach.sent]
    ensures reach.sent < |work.chunk| ==> CloseNotifies(half.wire) == old(CloseNotifies(half.wire))
  {
    ghost var put := WireBytes(half.wire) + work.chunk[..reach.sent];
    assert reach.sent == |work.chunk| ==> work.chunk[..reach.sent] == work.chunk;
    var ok := half.WriteAll(work.chunk, reach.sent);
    assert WireBytes(half.wire) == put;
    if ok && work.flushing {
      ok := half.Flush(reach.flushes);
      assert WireBytes(half.wire) == put;
    }
    if ok && work.shutdown {
      ok := half.Shutdown(reach.issues, reach.shutsDown);
      assert WireBytes(half.wire) == put;
    }
    ends := ctl.Commit(work.flushing, work.shutdown, ok);
  }
}
