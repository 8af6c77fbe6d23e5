/** What every step of the send direction keeps, in either variant of the re-check. */
module SendInvariants {
  import opened Basics
  import opened SendDirection

  // ---------------------------------------------------------------- the logs

  /** What the ledger promises by itself: with nothing discarded it is what was sent
      followed by what was aborted, and the three fates cover it. */
  predicate Splits(ledger: Log<Entry>) {
    && (Of(ledger, Discarded) == [] ==> Settled(ledger) == Of(ledger, Sent) + Of(ledger, Aborted))
    && |Settled(ledger)| == |Of(ledger, Sent)| + |Of(ledger, Discarded)| + |Of(ledger, Aborted)|
  }

  lemma AppendSplits(ledger: Log<Entry>, e: Entry)
    requires Splits(ledger)
    requires e.fate == Aborted || Of(ledger, Aborted) == []
    ensures Splits(Snoc(ledger, e))
  {}

  // ---------------------------------------------------------------- wake-ups

  /** A wake-up of the task is stored, or has reached it. */
  predicate WakeAtHand(s: Sys) {
    s.permit || ((s.task.Armed? || s.task.Asleep?) && s.task.slot == Notified)
  }

  /** A wake-up at hand is used up only by registering for one or by waking; a re-check
      that finds work hands it on. */
  lemma WakeKept(r: Recheck, s: Sys, e: Event)
    requires WakeAtHand(s) && Enabled(s, e) && !e.TaskArm? && !e.TaskWake?
    ensures WakeAtHand(Step(r, s, e))
  {}

  /** And delivering one puts it there. */
  lemma WakeDelivered(r: Recheck, s: Sys)
    requires Enabled(s, DeliverWake)
    ensures WakeAtHand(Step(r, s, DeliverWake))
  {}

  // ---------------------------------------------------------------- invariants

  /** Where the task can be, given the shared record. */
  predicate Shape(s: Sys) {
    && (s.inner.state != Open <==> s.task == Ended)
    && |s.inner.queued| <= CHUNK
    && (s.task.InIo? ==>
          && |s.task.rest| <= CHUNK
          && (s.task.stage != Write ==> s.task.rest == [])
          && (s.task.flushing ==> s.inner.flushing && s.inner.queued == [])
          && (s.task.shutdown ==> s.inner.shutdown && s.inner.queued == [])
          && (s.task.stage == Flush ==> s.task.flushing)
          && (s.task.stage == Close || s.task.stage == CloseSent ==> s.task.shutdown))
    && ((s.task.Armed? || s.task.Asleep?) && s.task.slot == Registered ==> !s.permit)
  }

  /** A write, flush or shutdown failed. */
  predicate Broken(s: Sys) {
    s.inner.state == Failed || (s.task.InIo? && s.task.stage == Done(false))
  }

  /** Every accepted byte is settled, in flight or queued, in order; the wire holds
      exactly the bytes settled as sent; only a failure aborts bytes. */
  predicate Accounted(s: Sys) {
    && s.accepted == Settled(s.ledger) + s.InFlight() + s.inner.queued
    && WireBytes(s.wire) == Of(s.ledger, Sent)
    && (Of(s.ledger, Aborted) != [] ==> Broken(s))
    && Splits(s.ledger)
  }

  /** close_notify and flush on the wire, against the stage the task is in. */
  predicate WireShape(s: Sys) {
    && CloseNotifies(s.wire) <= 1
    && (CloseNotifies(s.wire) == 1 ==>
          && s.wire.last == CloseNotify
          && s.inner.queued == [] && s.InFlight() == []
          && s.inner.shutdown && Of(s.ledger, Aborted) == []
          && (s.task == Ended ||
              (s.task.InIo? && s.task.shutdown && (s.task.stage == CloseSent || s.task.stage.Done?))))
    && (s.task.InIo? && s.task.stage == CloseSent ==> CloseNotifies(s.wire) == 1)
    && (s.task.InIo? && s.task.shutdown && s.task.stage == Done(true) ==> CloseNotifies(s.wire) == 1)
    && (s.inner.state == Closed ==> CloseNotifies(s.wire) == 1)
    && (s.task.InIo? && s.task.flushing &&
        (s.task.stage == Close || s.task.stage == CloseSent || s.task.stage == Done(true)) ==>
          FlushedLast(s.wire))
  }

  /** No lost wake-up of the task: asleep over pending work, a guest call still owes
      the notification. */
  predicate TaskWoken(s: Sys) {
    s.task == Asleep(Registered) && s.inner.HasWork() ==> s.owed > 0
  }

  /** A `ready` call asleep and not notified is covered by work the task has or will find. */
  predicate WaiterCovered(s: Sys) {
    s.waiter == Sleeping(false) ==> s.inner.state == Open && (s.task.InIo? || s.inner.HasWork())
  }

  predicate Inv(s: Sys) {
    Shape(s) && Accounted(s) && WireShape(s) && TaskWoken(s)
  }

  /** Steps that leave the queue, the bytes in flight and all three histories alone. */
  predicate Quiet(e: Event) {
    e.GuestFlush? || e.GuestShutdown? || e.DeliverWake? || e.TaskArm? || e.TaskWake? ||
    e.ReadyArm? || e.ReadyCheck? || e.ReadyWake? || e.ReadyCancel?
  }

  predicate IoEvent(e: Event) {
    e.IoWrite? || e.IoWritten? || e.IoFlushed? || e.IoCloseNotify? || e.IoShutdown? || e.IoFail?
  }

  lemma QuietStep(r: Recheck, s: Sys, e: Event)
    requires Quiet(e) && Enabled(s, e)
    ensures var t := Step(r, s, e);
            && t.accepted == s.accepted && t.ledger == s.ledger && t.wire == s.wire
            && t.inner.queued == s.inner.queued && t.inner.state == s.inner.state
            && (s.inner.shutdown ==> t.inner.shutdown)
            && (s.inner.flushing ==> t.inner.flushing)
            && (t.task.InIo? || s.task.InIo? ==> t.task == s.task)
            && (t.task == Ended <==> s.task == Ended)
  {}

  lemma ShapeIo(r: Recheck, s: Sys, e: Event)
    requires Shape(s) && IoEvent(e) && Enabled(s, e)
    ensures Shape(Step(r, s, e))
  {}

  lemma ShapeStep(r: Recheck, s: Sys, e: Event)
    requires Shape(s) && Enabled(s, e)
    ensures Shape(Step(r, s, e))
  {
    if IoEvent(e) {
      ShapeIo(r, s, e);
    }
  }

  lemma TaskWokenStep(r: Recheck, s: Sys, e: Event)
    requires Shape(s) && TaskWoken(s) && Enabled(s, e)
    ensures TaskWoken(Step(r, s, e))
  {}

  lemma Regroup(settled: seq<Byte>, rest: seq<Byte>, n: nat, queued: seq<Byte>)
    requires n <= |rest|
    ensures settled + rest + queued == (settled + rest[..n]) + rest[n..] + queued
    ensures settled + rest + queued == (settled + rest) + [] + queued
  {
    assert rest == rest[..n] + rest[n..];
  }

  lemma AccountedSent(r: Recheck, s: Sys, n: nat)
    requires Shape(s) && Accounted(s) && Enabled(s, IoWrite(n))
    ensures Accounted(SystemStep(r, s, IoWrite(n)))
  {
    Regroup(Settled(s.ledger), s.task.rest, n, s.inner.queued);
    AppendSplits(s.ledger, Entry(s.task.rest[..n], Sent));
  }

  lemma AccountedFail(r: Recheck, s: Sys)
    requires Shape(s) && Accounted(s) && Enabled(s, IoFail)
    ensures Accounted(SystemStep(r, s, IoFail))
  {
    Regroup(Settled(s.ledger), s.task.rest, 0, s.inner.queued);
    AppendSplits(s.ledger, Entry(s.task.rest, Aborted));
  }

  lemma AccountedIo(r: Recheck, s: Sys, e: Event)
    requires Shape(s) && Accounted(s) && Enabled(s, e)
    requires e.IoWritten? || e.IoFlushed? || e.IoCloseNotify? || e.IoShutdown?
    ensures Accounted(Step(r, s, e))
  {}

  lemma AccountedRecheck(r: Recheck, s: Sys)
    requires Shape(s) && Accounted(s) && Enabled(s, TaskRecheck)
    ensures Accounted(Step(r, s, TaskRecheck))
  {
    AppendSplits(s.ledger, Entry(s.inner.queued, Discarded));
  }

  lemma AccountedQueue(r: Recheck, s: Sys, e: Event)
    requires Shape(s) && Accounted(s) && Enabled(s, e)
    requires e.GuestWrite? || e.TaskNext? || e.TaskCommit?
    ensures Accounted(Step(r, s, e))
  {
    if e.GuestWrite? {
      assert s.accepted + e.bytes == Settled(s.ledger) + s.InFlight() + (s.inner.queued + e.bytes);
    }
  }

  lemma AccountedStep(r: Recheck, s: Sys, e: Event)
    requires Shape(s) && Accounted(s) && Enabled(s, e)
    ensures Accounted(Step(r, s, e))
  {
    if Quiet(e) {
      QuietStep(r, s, e);
    } else if e.IoWrite? {
      AccountedSent(r, s, e.n);
    } else if e.IoFail? {
      AccountedFail(r, s);
    } else if IoEvent(e) {
      AccountedIo(r, s, e);
    } else if e.TaskRecheck? {
      AccountedRecheck(r, s);
    } else {
      AccountedQueue(r, s, e);
    }
  }

  lemma WireShapeIo(r: Recheck, s: Sys, e: Event)
    requires Shape(s) && Accounted(s) && WireShape(s) && IoEvent(e) && Enabled(s, e)
    ensures WireShape(Step(r, s, e))
  {}

  lemma WireShapeQueue(r: Recheck, s: Sys, e: Event)
    requires Shape(s) && WireShape(s) && Enabled(s, e)
    requires e.GuestWrite? || e.TaskNext? || e.TaskRecheck? || e.TaskCommit?
    ensures WireShape(Step(r, s, e))
  {}

  lemma WireShapeStep(r: Recheck, s: Sys, e: Event)
    requires Shape(s) && Accounted(s) && WireShape(s) && Enabled(s, e)
    ensures WireShape(Step(r, s, e))
  {
    if Quiet(e) {
      QuietStep(r, s, e);
    } else if IoEvent(e) {
      WireShapeIo(r, s, e);
    } else {
      WireShapeQueue(r, s, e);
    }
  }

  lemma InvStep(r: Recheck, s: Sys, e: Event)
    requires Inv(s) && Enabled(s, e)
    ensures Inv(Step(r, s, e))
  {
    ShapeStep(r, s, e);
    TaskWokenStep(r, s, e);
    AccountedStep(r, s, e);
    WireShapeStep(r, s, e);
  }

  /** The invariant holds in every state of every run, whichever way the re-check works. */
  lemma {:induction false} InvRun(r: Recheck, s: Sys, es: seq<Event>)
    requires Inv(s) && ValidRun(r, s, es)
    ensures Inv(Final(r, s, es))
    decreases |es|
  {
    if es != [] {
      InvStep(r, s, es[0]);
      InvRun(r, Step(r, s, es[0]), es[1..]);
    }
  }

  /** With a look that takes nothing, a sleeping `ready` stays covered and nothing is discarded. */
  predicate PeekInv(s: Sys) {
    Inv(s) && WaiterCovered(s) && Of(s.ledger, Discarded) == []
  }

  lemma PeekLedgerStep(s: Sys, e: Event)
    requires Of(s.ledger, Discarded) == [] && Enabled(s, e)
    ensures Of(Step(Peek, s, e).ledger, Discarded) == []
  {}

  lemma WaiterCoveredStep(s: Sys, e: Event)
    requires Shape(s) && WaiterCovered(s) && Enabled(s, e)
    ensures WaiterCovered(Step(Peek, s, e))
  {}

  lemma PeekInvStep(s: Sys, e: Event)
    requires PeekInv(s) && Enabled(s, e)
    ensures PeekInv(Step(Peek, s, e))
  {
    InvStep(Peek, s, e);
    PeekLedgerStep(s, e);
    WaiterCoveredStep(s, e);
  }

  lemma {:induction false} PeekInvRun(s: Sys, es: seq<Event>)
    requires PeekInv(s) && ValidRun(Peek, s, es)
    ensures PeekInv(Final(Peek, s, es))
    decreases |es|
  {
    if es != [] {
      PeekInvStep(s, es[0]);
      PeekInvRun(Step(Peek, s, es[0]), es[1..]);
    }
  }

  lemma {:induction false} RunAppend(r: Recheck, s: Sys, es: seq<Event>, fs: seq<Event>)
    requires ValidRun(r, s, es) && ValidRun(r, Final(r, s, es), fs)
    ensures ValidRun(r, s, es + fs)
    ensures Final(r, s, es + fs) == Final(r, Final(r, s, es), fs)
    decreases |es|
  {
    if es == [] {
      assert es + fs == fs;
    } else {
      assert (es + fs)[1..] == es[1..] + fs;
      RunAppend(r, Step(r, s, es[0]), es[1..], fs);
    }
  }
}
