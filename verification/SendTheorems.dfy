/**
 What the send direction promises over whole runs.  Results named for the peek
 variant hold of the re-check its comment describes; the results on `Take` say
 exactly when they hold of the code as written.
 */
module SendTheorems {
  import opened Basics
  import opened SendDirection
  import opened SendInvariants

  // ---------------------------------------------------------------- conservation

  /** In order and without loss: written, cut off by a failure, in flight, queued. */
  predicate Conserved(s: Sys) {
    s.accepted == WireBytes(s.wire) + Of(s.ledger, Aborted) + s.InFlight() + s.inner.queued
  }

  /** Every interleaving conserves bytes when the re-check takes nothing; until a
      failure nothing is cut off, and after one the wire is a prefix. */
  lemma ConservationPeek(es: seq<Event>)
    requires ValidRun(Peek, INIT, es)
    ensures var t := Final(Peek, INIT, es);
            && Conserved(t)
            && WireBytes(t.wire) <= t.accepted
            && (!Broken(t) ==> t.accepted == WireBytes(t.wire) + t.InFlight() + t.inner.queued)
  {
    PeekInvRun(INIT, es);
    PeekConserves(Final(Peek, INIT, es));
  }

  lemma PeekConserves(t: Sys)
    requires PeekInv(t)
    ensures Conserved(t) && WireBytes(t.wire) <= t.accepted
    ensures !Broken(t) ==> t.accepted == WireBytes(t.wire) + t.InFlight() + t.inner.queued
  {}

  lemma SameStep(s: Sys, e: Event)
    requires Enabled(s, e) && !Discards(Take, s, e)
    ensures Step(Take, s, e) == Step(Peek, s, e)
  {}

  /** As written, a run without a discarding re-check is step for step a peek run. */
  lemma {:induction false} LossFreeIsPeek(s: Sys, es: seq<Event>)
    requires ValidRun(Take, s, es) && LossFree(Take, s, es)
    ensures ValidRun(Peek, s, es) && Final(Peek, s, es) == Final(Take, s, es)
    decreases |es|
  {
    if es != [] {
      SameStep(s, es[0]);
      LossFreeIsPeek(Step(Take, s, es[0]), es[1..]);
    }
  }

  lemma DiscardedGrowsStep(r: Recheck, s: Sys, e: Event)
    requires Enabled(s, e)
    ensures |Of(Step(r, s, e).ledger, Discarded)| >= |Of(s.ledger, Discarded)|
    ensures Discards(r, s, e) ==> |Of(Step(r, s, e).ledger, Discarded)| > 0
  {}

  lemma {:induction false} DiscardedGrows(r: Recheck, s: Sys, es: seq<Event>)
    requires ValidRun(r, s, es)
    ensures |Of(Final(r, s, es).ledger, Discarded)| >= |Of(s.ledger, Discarded)|
    ensures !LossFree(r, s, es) ==> |Of(Final(r, s, es).ledger, Discarded)| > 0
    decreases |es|
  {
    if es != [] {
      DiscardedGrowsStep(r, s, es[0]);
      DiscardedGrows(r, Step(r, s, es[0]), es[1..]);
    }
  }

  /** The code as written conserves bytes over a run if and only if the re-check
      never once finds bytes in the queue. */
  lemma ConservationTakeIff(es: seq<Event>)
    requires ValidRun(Take, INIT, es)
    ensures Conserved(Final(Take, INIT, es)) <==> LossFree(Take, INIT, es)
  {
    if LossFree(Take, INIT, es) {
      LossFreeIsPeek(INIT, es);
      ConservationPeek(es);
    } else {
      var t := Final(Take, INIT, es);
      InvRun(Take, INIT, es);
      DiscardedGrows(Take, INIT, es);
      assert |t.accepted| == |Settled(t.ledger)| + |t.InFlight()| + |t.inner.queued|;
    }
  }

  predicate Subsequence(a: seq<Byte>, b: seq<Byte>)
    decreases |b|
  {
    a == [] ||
    (b != [] &&
     ((a[|a| - 1] == b[|b| - 1] && Subsequence(a[..|a| - 1], b[..|b| - 1])) ||
      Subsequence(a, b[..|b| - 1])))
  }

  lemma {:induction false} SubsequenceExtend(a: seq<Byte>, b: seq<Byte>, c: seq<Byte>)
    requires Subsequence(a, b)
    ensures Subsequence(a, b + c)
    ensures Subsequence(a + c, b + c)
    decreases |c|
  {
    if c == [] {
      assert a + c == a && b + c == b;
    } else {
      var k := |c| - 1;
      SubsequenceExtend(a, b, c[..k]);
      assert (a + c)[..|a + c| - 1] == a + c[..k];
      assert (b + c)[..|b + c| - 1] == b + c[..k];
    }
  }

  lemma {:induction false} SentIsSubsequence(ledger: Log<Entry>)
    ensures Subsequence(Of(ledger, Sent), Settled(ledger))
  {
    match ledger
    case Nil =>
    case Snoc(l, e) =>
      SentIsSubsequence(l);
      SubsequenceExtend(Of(l, Sent), Settled(l), e.bytes);
  }

  /** Either way, once the bytes thrown away are logged every accepted byte is
      accounted for in order, and the wire is a subsequence of what was accepted. */
  lemma ConservationTake(r: Recheck, es: seq<Event>)
    requires ValidRun(r, INIT, es)
    ensures var t := Final(r, INIT, es);
            && t.accepted == Settled(t.ledger) + t.InFlight() + t.inner.queued
            && WireBytes(t.wire) == Of(t.ledger, Sent)
            && Subsequence(WireBytes(t.wire), t.accepted)
  {
    InvRun(r, INIT, es);
    SentOfAccepted(Final(r, INIT, es));
  }

  lemma SentOfAccepted(t: Sys)
    requires Inv(t)
    ensures Subsequence(WireBytes(t.wire), t.accepted)
  {
    SentIsSubsequence(t.ledger);
    SubsequenceExtend(Of(t.ledger, Sent), Settled(t.ledger), t.InFlight() + t.inner.queued);
    assert Settled(t.ledger) + (t.InFlight() + t.inner.queued) == t.accepted;
  }

  // ---------------------------------------------------------------- wake-ups

  /** The task sleeps with nothing on its way to wake it. */
  predicate TaskStuck(s: Sys) {
    s.task == Asleep(Registered) && s.owed == 0
  }

  /** The guest is parked in `ready` and nothing notified it. */
  predicate GuestStuck(s: Sys) {
    s.waiter == Sleeping(false)
  }

  /** No lost wake-up, in either variant: a task asleep with no wake stored or owed
      has no work, and its stored permit is not lying unused either. */
  lemma NoLostWake(r: Recheck, es: seq<Event>)
    requires ValidRun(r, INIT, es) && TaskStuck(Final(r, INIT, es))
    ensures !Final(r, INIT, es).inner.HasWork() && !Final(r, INIT, es).permit
    ensures Final(r, INIT, es).inner.state == Open
  {
    InvRun(r, INIT, es);
  }

  /** With the peek, the two sides never sleep on each other. */
  lemma NoDeadlockPeek(es: seq<Event>)
    requires ValidRun(Peek, INIT, es)
    ensures !(TaskStuck(Final(Peek, INIT, es)) && GuestStuck(Final(Peek, INIT, es)))
  {
    PeekInvRun(INIT, es);
  }

  /** As written, the step that strands the guest: the re-check throws away the only
      work a call asleep in `ready` was waiting on. */
  predicate Strands(s: Sys, e: Event) {
    && Discards(Take, s, e) && s.waiter == Sleeping(false)
    && !s.inner.flushing && !s.inner.shutdown
  }

  /** What helps a stranded guest: giving up the wait, or a call that makes new work. */
  predicate Rescues(e: Event) {
    e == ReadyCancel || e == GuestFlush || e == GuestShutdown
    || (e.GuestWrite? && 0 < |e.bytes| <= CHUNK)
  }

  /** Some step of the run strands the guest and no later one rescues it. */
  predicate LeavesStranded(s: Sys, es: seq<Event>, stranded: bool)
    requires ValidRun(Take, s, es)
    decreases |es|
  {
    if es == [] then stranded
    else LeavesStranded(Step(Take, s, es[0]), es[1..],
                        if stranded then !Rescues(es[0]) else Strands(s, es[0]))
  }

  /** A guest asleep in `ready` over an open, idle direction. */
  predicate Stranded(s: Sys) {
    s.waiter == Sleeping(false) && s.inner == FRESH && !s.task.InIo? && s.task != Ended
  }

  lemma CoverageLost(s: Sys, e: Event)
    requires Shape(s) && WaiterCovered(s) && Enabled(s, e)
    ensures Strands(s, e) ==> Stranded(Step(Take, s, e))
    ensures !Strands(s, e) ==> WaiterCovered(Step(Take, s, e))
  {
    if !Discards(Take, s, e) {
      SameStep(s, e);
      WaiterCoveredStep(s, e);
    }
  }

  lemma CoverageRegained(s: Sys, e: Event)
    requires Stranded(s) && Enabled(s, e)
    ensures Rescues(e) ==> WaiterCovered(Step(Take, s, e))
    ensures !Rescues(e) ==> Stranded(Step(Take, s, e))
  {}

  lemma {:induction false} StrandedRun(s: Sys, es: seq<Event>, stranded: bool)
    requires Inv(s) && ValidRun(Take, s, es) && if stranded then Stranded(s) else WaiterCovered(s)
    ensures var t := Final(Take, s, es);
            if LeavesStranded(s, es, stranded) then Stranded(t) else WaiterCovered(t)
    decreases |es|
  {
    if es != [] {
      InvStep(Take, s, es[0]);
      if stranded {
        CoverageRegained(s, es[0]);
      } else {
        CoverageLost(s, es[0]);
      }
      StrandedRun(Step(Take, s, es[0]), es[1..], if stranded then !Rescues(es[0]) else Strands(s, es[0]));
    }
  }

  /** As written, a sleeping task and a parked guest sleep on each other if and only if
      the run stranded the guest and nothing it did since helps. */
  lemma DeadlockIff(es: seq<Event>)
    requires ValidRun(Take, INIT, es) && TaskStuck(Final(Take, INIT, es))
    ensures GuestStuck(Final(Take, INIT, es)) <==> LeavesStranded(INIT, es, false)
  {
    InvRun(Take, INIT, es);
    StrandedRun(INIT, es, false);
  }

  predicate NeverStrands(s: Sys, es: seq<Event>)
    requires ValidRun(Take, s, es)
    decreases |es|
  {
    es == [] || (!Strands(s, es[0]) && NeverStrands(Step(Take, s, es[0]), es[1..]))
  }

  lemma {:induction false} NeverStrandsLeavesNone(s: Sys, es: seq<Event>)
    requires ValidRun(Take, s, es) && NeverStrands(s, es)
    ensures !LeavesStranded(s, es, false)
    decreases |es|
  {
    if es != [] {
      NeverStrandsLeavesNone(Step(Take, s, es[0]), es[1..]);
    }
  }

  /** So a run of the code with no stranding step has no deadlock, bytes lost or not. */
  lemma NoDeadlockUnlessStranded(es: seq<Event>)
    requires ValidRun(Take, INIT, es) && NeverStrands(INIT, es)
    ensures !(TaskStuck(Final(Take, INIT, es)) && GuestStuck(Final(Take, INIT, es)))
  {
    NeverStrandsLeavesNone(INIT, es);
    if TaskStuck(Final(Take, INIT, es)) {
      DeadlockIff(es);
    }
  }

  // ---------------------------------------------------------------- the re-check as written

  lemma Once(r: Recheck, s: Sys, e: Event)
    requires Enabled(s, e)
    ensures ValidRun(r, s, [e]) && Final(r, s, [e]) == Step(r, s, e)
  {
    var es, u := [e], Step(r, s, e);
    assert es[0] == e && es[1..] == [];
    assert ValidRun(r, u, []) && Final(r, u, []) == u;
  }

  /** The bytes are queued and nothing else has happened to them. */
  function Waiting(bytes: seq<Byte>, task: Task, permit: bool, owed: nat, w: Waiter): Sys {
    Sys(FRESH.(queued := bytes), task, permit, owed, w, bytes, Nil, Nil)
  }

  /** The bytes were discarded; the shared record looks untouched. */
  function Lost(bytes: seq<Byte>, task: Task, w: Waiter): Sys {
    Sys(FRESH, task, false, 0, w, bytes, Snoc(Nil, Entry(bytes, Discarded)), Nil)
  }

  /** A write, and its wake-up, that land between the first look and the re-check. */
  function RacingWrite(bytes: seq<Byte>): seq<Event> {
    [TaskNext, GuestWrite(bytes), DeliverWake]
  }

  lemma RacingWriteRun(bytes: seq<Byte>)
    requires 0 < |bytes| <= CHUNK
    ensures ValidRun(Take, INIT, RacingWrite(bytes))
    ensures Final(Take, INIT, RacingWrite(bytes)) == Waiting(bytes, Registering, true, 0, NoWaiter)
  {
    var es := RacingWrite(bytes);
    var s := INIT.(task := Registering);
    var t := Waiting(bytes, Registering, false, 1, NoWaiter);
    var u := Waiting(bytes, Registering, true, 0, NoWaiter);
    assert Step(Take, INIT, es[0]) == s;
    assert Step(Take, s, es[1]) == t by {
      assert [] + bytes == bytes;
    }
    Once(Take, t, DeliverWake);
    assert es[2..] == [DeliverWake];
    assert Step(Take, t, DeliverWake) == u;
    assert es[1..][1..] == es[2..];
    assert ValidRun(Take, s, es[1..]) && Final(Take, s, es[1..]) == u;
  }

  /** The task's own steps from there: register, re-check, look again, sleep. */
  function TaskTail(): seq<Event> {
    [TaskArm, TaskRecheck, TaskNext, TaskArm, TaskRecheck]
  }

  lemma TaskTailRun(bytes: seq<Byte>, w: Waiter)
    requires bytes != []
    ensures ValidRun(Take, Waiting(bytes, Registering, true, 0, w), TaskTail())
    ensures Final(Take, Waiting(bytes, Registering, true, 0, w), TaskTail()) ==
            Lost(bytes, Asleep(Registered), w)
  {
    var es, s := TaskTail(), Waiting(bytes, Registering, true, 0, w);
    var t := Waiting(bytes, Armed(Consumed), false, 0, w);
    assert Step(Take, s, es[0]) == t && Step(Take, t, es[1]) == Lost(bytes, Top, w);
    SleepRun(bytes, w);
    assert es[2..] == [TaskNext, TaskArm, TaskRecheck] && es[1..][1..] == es[2..];
    assert ValidRun(Take, t, es[1..]) && Final(Take, t, es[1..]) == Lost(bytes, Asleep(Registered), w);
  }

  lemma SleepRun(bytes: seq<Byte>, w: Waiter)
    ensures var es := [TaskNext, TaskArm, TaskRecheck];
            && ValidRun(Take, Lost(bytes, Top, w), es)
            && Final(Take, Lost(bytes, Top, w), es) == Lost(bytes, Asleep(Registered), w)
  {}

  /** Any bytes written in that window vanish: the call succeeded, the stream is
      open, and the task is asleep with the queue empty and nothing on the wire. */
  lemma AcceptedBytesVanish(bytes: seq<Byte>)
    requires 0 < |bytes| <= CHUNK
    ensures ValidRun(Take, INIT, RacingWrite(bytes) + TaskTail())
    ensures var t := Final(Take, INIT, RacingWrite(bytes) + TaskTail());
            && t.accepted == bytes && t.wire == Nil && t.inner == FRESH && TaskStuck(t)
  {
    RacingWriteRun(bytes);
    TaskTailRun(bytes, NoWaiter);
    RunAppend(Take, INIT, RacingWrite(bytes), TaskTail());
  }

  function ParkInReady(): seq<Event> {
    [ReadyArm, ReadyCheck]
  }

  lemma ParkInReadyRun(bytes: seq<Byte>)
    requires |bytes| == CHUNK
    ensures ValidRun(Take, Waiting(bytes, Registering, true, 0, NoWaiter), ParkInReady())
    ensures Final(Take, Waiting(bytes, Registering, true, 0, NoWaiter), ParkInReady()) ==
            Waiting(bytes, Registering, true, 0, Sleeping(false))
  {}

  /** A guest that fills the queue in that window and then waits for room waits for
      ever: both sides sleep, no wake is stored or owed. */
  lemma DeadlockAsWritten(bytes: seq<Byte>)
    requires |bytes| == CHUNK
    ensures var es := RacingWrite(bytes) + ParkInReady() + TaskTail();
            && ValidRun(Take, INIT, es)
            && TaskStuck(Final(Take, INIT, es)) && GuestStuck(Final(Take, INIT, es))
  {
    RacingWriteRun(bytes);
    ParkInReadyRun(bytes);
    TaskTailRun(bytes, Sleeping(false));
    RunAppend(Take, INIT, RacingWrite(bytes), ParkInReady());
    RunAppend(Take, INIT, RacingWrite(bytes) + ParkInReady(), TaskTail());
  }

  /** And it stays so: as long as the guest makes no call of its own accord, no step
      of the runtime is enabled and `ready` does not return. */
  lemma DeadlockIsFinal(s: Sys, e: Event)
    requires TaskStuck(s) && GuestStuck(s) && Enabled(s, e)
    ensures e.Guest() || e == ReadyCancel
  {}

  // ---------------------------------------------------------------- flush fence

  /** `longer` is `shorter` with later entries. */
  predicate Extends<T(==)>(longer: Log<T>, shorter: Log<T>) {
    longer == shorter || (longer.Snoc? && Extends(longer.earlier, shorter))
  }

  lemma {:induction false} ExtendsTrans<T>(a: Log<T>, b: Log<T>, c: Log<T>)
    requires Extends(a, b) && Extends(b, c)
    ensures Extends(a, c)
  {
    if a != b {
      ExtendsTrans(a.earlier, b, c);
    }
  }

  lemma WireGrowsStep(r: Recheck, s: Sys, e: Event)
    requires Enabled(s, e)
    ensures Extends(Step(r, s, e).wire, s.wire)
  {}

  lemma {:induction false} WireGrows(r: Recheck, s: Sys, es: seq<Event>)
    requires ValidRun(r, s, es)
    ensures Extends(Final(r, s, es).wire, s.wire)
    decreases |es|
  {
    if es != [] {
      WireGrowsStep(r, s, es[0]);
      WireGrows(r, Step(r, s, es[0]), es[1..]);
      ExtendsTrans(Final(r, s, es).wire, Step(r, s, es[0]).wire, s.wire);
    }
  }

  /** While a flush is pending no byte joins the queue, so the emptiness test in the
      commit is never the reason a flush stays pending; the flag falls only in a
      successful commit that had seen it. */
  lemma FlushStep(r: Recheck, s: Sys, e: Event)
    requires Inv(s) && s.inner.flushing && Enabled(s, e)
    ensures var t := Step(r, s, e);
            && t.accepted == s.accepted
            && (e == TaskCommit && s.task.flushing ==> s.inner.queued == [])
            && (!t.inner.flushing ==>
                  && e == TaskCommit && s.task.flushing && s.task.stage == Done(true)
                  && t.wire == s.wire && FlushedLast(s.wire))
  {}

  /** A pending flush ends with the commit that comes next. */
  predicate LowersFlush(r: Recheck, s: Sys) {
    s.inner.flushing && Enabled(s, TaskCommit) && !Step(r, s, TaskCommit).inner.flushing
  }

  lemma FlushFalls(r: Recheck, s: Sys, e: Event)
    requires Inv(s) && s.inner.flushing && Enabled(s, e) && !Step(r, s, e).inner.flushing
    ensures e == TaskCommit && LowersFlush(r, s) && FlushedLast(s.wire)
    ensures s.inner.queued == [] && s.InFlight() == [] && !Broken(s)
  {
    FlushStep(r, s, e);
  }

  /** The commit in which a pending flush ends: nothing was accepted since, nothing is
      queued or in flight, nothing failed, and the wire ends in a flush. */
  lemma {:induction false} FlushEnds(r: Recheck, s: Sys, es: seq<Event>) returns (k: nat)
    requires Inv(s) && s.inner.flushing && ValidRun(r, s, es) && !Final(r, s, es).inner.flushing
    ensures k < |es| && es[k] == TaskCommit && ValidRun(r, s, es[..k])
    ensures var u := Final(r, s, es[..k]);
            && Inv(u) && u.accepted == s.accepted && LowersFlush(r, u)
            && u.inner.queued == [] && u.InFlight() == [] && !Broken(u) && FlushedLast(u.wire)
            && Extends(Final(r, s, es).wire, u.wire)
    decreases |es|
  {
    hide Step, Inv, LowersFlush, FlushedLast;
    var u := Step(r, s, es[0]);
    if u.inner.flushing {
      FlushStep(r, s, es[0]);
      InvStep(r, s, es[0]);
      var j := FlushEnds(r, u, es[1..]);
      k := j + 1;
      assert es[..k][1..] == es[1..][..j];
    } else {
      k := 0;
      FlushFalls(r, s, es[0]);
      WireGrows(r, s, es);
      assert es[..k] == [];
    }
  }

  /** The fence: once a pending flush is over, everything accepted before it was
      asked for had reached the TLS half, and a TLS flush succeeded right after. */
  lemma FlushFence(es: seq<Event>, later: seq<Event>)
    requires ValidRun(Peek, INIT, es) && Final(Peek, INIT, es).inner.flushing
    requires ValidRun(Peek, Final(Peek, INIT, es), later)
    requires !Final(Peek, Final(Peek, INIT, es), later).inner.flushing
    ensures exists w :: && Extends(Final(Peek, Final(Peek, INIT, es), later).wire, w)
                        && FlushedLast(w) && WireBytes(w) == Final(Peek, INIT, es).accepted
  {
    var s := Final(Peek, INIT, es);
    PeekInvRun(INIT, es);
    var k := FlushEnds(Peek, s, later);
    PeekInvRun(s, later[..k]);
    PeekConserves(Final(Peek, s, later[..k]));
  }

  /** As written, a pending flush still ends in a commit right behind a TLS flush, but
      the bytes accepted before it are on the wire there if and only if no re-check of
      the run so far found bytes queued. */
  lemma FlushFenceTakeIff(es: seq<Event>, later: seq<Event>) returns (k: nat)
    requires ValidRun(Take, INIT, es) && Final(Take, INIT, es).inner.flushing
    requires ValidRun(Take, Final(Take, INIT, es), later)
    requires !Final(Take, Final(Take, INIT, es), later).inner.flushing
    ensures k < |later| && later[k] == TaskCommit && ValidRun(Take, INIT, es + later[..k])
    ensures var s := Final(Take, INIT, es);
            var u := Final(Take, INIT, es + later[..k]);
            && LowersFlush(Take, u) && FlushedLast(u.wire) && Extends(Final(Take, s, later).wire, u.wire)
            && (WireBytes(u.wire) == s.accepted <==> LossFree(Take, INIT, es + later[..k]))
  {
    hide Step, Enabled, WireBytes, FlushedLast, Inv, LowersFlush;
    var s := Final(Take, INIT, es);
    StartInv();
    InvRun(Take, INIT, es);
    k := FlushEnds(Take, s, later);
    RunAppend(Take, INIT, es, later[..k]);
    ConservationTakeIff(es + later[..k]);
    DeliveredIff(Final(Take, s, later[..k]));
  }

  lemma StartInv()
    ensures Inv(INIT)
  {}

  /** With nothing queued, in flight or cut off, conserved means delivered. */
  lemma DeliveredIff(u: Sys)
    requires Inv(u) && u.inner.queued == [] && u.InFlight() == []
    requires !Broken(u) || Of(u.ledger, Aborted) == []
    ensures Conserved(u) <==> WireBytes(u.wire) == u.accepted
  {
    assert WireBytes(u.wire) + [] + [] + [] == WireBytes(u.wire);
  }

  function WokenUp(): seq<Event> {
    [DeliverWake, TaskWake, TaskNext]
  }

  /** A sleeping task that is owed a wake-up starts on what was requested. */
  lemma WokenRun(s: Sys, io: Task)
    requires s.task == Asleep(Registered) && s.owed == 1
    requires io.InIo? && io == InIo(Write, [], io.flushing, io.shutdown)
    requires NextWork(s.inner) == (s.inner, Io([], io.flushing, io.shutdown))
    ensures ValidRun(Take, s, WokenUp()) && Final(Take, s, WokenUp()) == s.(task := io, owed := 0)
  {
    var es := WokenUp();
    var t := s.(task := Asleep(Notified), owed := 0);
    var u := t.(task := Top);
    assert Step(Take, s, es[0]) == t && Step(Take, t, es[1]) == u;
    Once(Take, u, TaskNext);
    assert es[2..] == [TaskNext] && es[1..][1..] == es[2..];
    assert ValidRun(Take, t, es[1..]) && Final(Take, t, es[1..]) == Step(Take, u, TaskNext);
  }

  function FlushRequest(): seq<Event> {
    [GuestFlush, DeliverWake, TaskWake, TaskNext]
  }

  function FlushRound(): seq<Event> {
    [IoWritten, IoFlushed, TaskCommit]
  }

  /** After the discard, a flush is pending and the task starts on it. */
  function FlushPending(bytes: seq<Byte>, task: Task, owed: nat): Sys {
    Lost(bytes, task, NoWaiter).(inner := FRESH.(flushing := true), owed := owed)
  }

  lemma FlushRequestRun(bytes: seq<Byte>)
    ensures var s := Lost(bytes, Asleep(Registered), NoWaiter);
            && ValidRun(Take, s, FlushRequest())
            && Final(Take, s, FlushRequest()) == FlushPending(bytes, InIo(Write, [], true, false), 0)
  {
    var es := FlushRequest();
    var t := FlushPending(bytes, Asleep(Registered), 1);
    assert Step(Take, Lost(bytes, Asleep(Registered), NoWaiter), es[0]) == t;
    WokenRun(t, InIo(Write, [], true, false));
    assert es[1..] == WokenUp();
  }

  lemma FlushRoundRun(bytes: seq<Byte>)
    ensures var s := FlushPending(bytes, InIo(Write, [], true, false), 0);
            && ValidRun(Take, s, FlushRound())
            && Final(Take, s, FlushRound()) == Lost(bytes, Top, NoWaiter).(wire := Snoc(Nil, FlushEvent))
  {}

  /** As written, a flush that follows the racing write completes with none of the
      bytes written before it on the wire. */
  lemma FlushFenceFailsAsWritten(bytes: seq<Byte>)
    requires 0 < |bytes| <= CHUNK
    ensures var es := RacingWrite(bytes) + TaskTail() + FlushRequest() + FlushRound();
            && ValidRun(Take, INIT, es)
            && var t := Final(Take, INIT, es);
               !t.inner.flushing && t.wire == Snoc(Nil, FlushEvent) && t.accepted == bytes
  {
    RacingWriteRun(bytes);
    TaskTailRun(bytes, NoWaiter);
    FlushRequestRun(bytes);
    FlushRoundRun(bytes);
    RunAppend(Take, INIT, RacingWrite(bytes), TaskTail());
    RunAppend(Take, INIT, RacingWrite(bytes) + TaskTail(), FlushRequest());
    RunAppend(Take, INIT, RacingWrite(bytes) + TaskTail() + FlushRequest(), FlushRound());
  }

  // ---------------------------------------------------------------- close_notify

  /** close_notify (section 6.1 of RFC 8446) goes out at most once, as the last event
      of the direction, with nothing queued or in flight; `Closed` means it did. */
  lemma CloseNotifyOnce(r: Recheck, es: seq<Event>)
    requires ValidRun(r, INIT, es)
    ensures var t := Final(r, INIT, es);
            && CloseNotifies(t.wire) <= 1
            && (CloseNotifies(t.wire) == 1 ==>
                  && t.wire.last == CloseNotify && t.inner.shutdown
                  && t.inner.queued == [] && t.InFlight() == []
                  && t.accepted == Settled(t.ledger) && Of(t.ledger, Aborted) == [])
            && (t.inner.state == Closed ==> CloseNotifies(t.wire) == 1)
  {
    InvRun(r, INIT, es);
  }

  /** The TLS shutdown of the current or last round succeeded. */
  predicate ShutDownOk(s: Sys) {
    s.inner.state == Closed || (s.task.InIo? && s.task.shutdown && s.task.stage == Done(true))
  }

  lemma ShutDownStep(r: Recheck, s: Sys, e: Event)
    requires Shape(s) && Enabled(s, e) && !ShutDownOk(s) && ShutDownOk(Step(r, s, e))
    ensures e == IoShutdown
  {}

  lemma {:induction false} ShutDownRun(r: Recheck, s: Sys, es: seq<Event>)
    requires Inv(s) && ValidRun(r, s, es) && !ShutDownOk(s) && ShutDownOk(Final(r, s, es))
    ensures IoShutdown in es
    decreases |es|
  {
    var u := Step(r, s, es[0]);
    InvStep(r, s, es[0]);
    if ShutDownOk(u) {
      ShutDownStep(r, s, es[0]);
    } else {
      ShutDownRun(r, u, es[1..]);
    }
  }

  /** `Closed` is reached only through a TLS shutdown that succeeded. */
  lemma ClosedOnlyAfterShutdown(r: Recheck, es: seq<Event>)
    requires ValidRun(r, INIT, es) && Final(r, INIT, es).inner.state == Closed
    ensures IoShutdown in es
  {
    ShutDownRun(r, INIT, es);
  }

  /** With the peek it follows every accepted byte. */
  lemma CloseNotifyIsComplete(es: seq<Event>)
    requires ValidRun(Peek, INIT, es) && CloseNotifies(Final(Peek, INIT, es).wire) > 0
    ensures WireBytes(Final(Peek, INIT, es).wire) == Final(Peek, INIT, es).accepted
  {
    PeekInvRun(INIT, es);
  }

  /** As written it follows every accepted byte if and only if no re-check found any. */
  lemma CloseNotifyCompleteIff(es: seq<Event>)
    requires ValidRun(Take, INIT, es) && CloseNotifies(Final(Take, INIT, es).wire) > 0
    ensures WireBytes(Final(Take, INIT, es).wire) == Final(Take, INIT, es).accepted <==> LossFree(Take, INIT, es)
  {
    InvRun(Take, INIT, es);
    ConservationTakeIff(es);
    DeliveredIff(Final(Take, INIT, es));
  }

  function CloseRequest(): seq<Event> {
    [GuestShutdown, DeliverWake, TaskWake, TaskNext]
  }

  function CloseRound(): seq<Event> {
    [IoWritten, IoCloseNotify, IoShutdown, TaskCommit]
  }

  /** After the discard, a shutdown is pending and the task starts on it. */
  function ClosePending(bytes: seq<Byte>): Sys {
    Lost(bytes, InIo(Write, [], false, true), NoWaiter).(inner := FRESH.(shutdown := true))
  }

  lemma CloseRequestRun(bytes: seq<Byte>)
    ensures var s := Lost(bytes, Asleep(Registered), NoWaiter);
            ValidRun(Take, s, CloseRequest()) && Final(Take, s, CloseRequest()) == ClosePending(bytes)
  {
    var es := CloseRequest();
    var s := Lost(bytes, Asleep(Registered), NoWaiter);
    var t := s.(inner := FRESH.(shutdown := true), owed := 1);
    assert Step(Take, s, es[0]) == t;
    WokenRun(t, InIo(Write, [], false, true));
    assert es[1..] == WokenUp();
  }

  lemma CloseRoundRun(bytes: seq<Byte>)
    ensures ValidRun(Take, ClosePending(bytes), CloseRound())
    ensures Final(Take, ClosePending(bytes), CloseRound()) ==
            ClosePending(bytes).(task := Ended, inner := Inner([], false, true, Closed),
                                 wire := Snoc(Nil, CloseNotify))
  {
    var es, s := CloseRound(), ClosePending(bytes);
    var t := s.(task := s.task.(stage := Close));
    var u := t.(task := t.task.(stage := CloseSent), wire := Snoc(Nil, CloseNotify));
    assert Step(Take, s, es[0]) == t && Step(Take, t, es[1]) == u;
    CloseEnds(u);
    assert es[2..] == [IoShutdown, TaskCommit] && es[1..][1..] == es[2..];
    assert ValidRun(Take, t, es[1..]) && Final(Take, t, es[1..]) == Final(Take, u, es[2..]);
  }

  /** The TLS shutdown succeeds and the round is committed. */
  lemma CloseEnds(s: Sys)
    requires s.task == InIo(CloseSent, [], false, true) && s.waiter == NoWaiter
    ensures ValidRun(Take, s, [IoShutdown, TaskCommit])
    ensures Final(Take, s, [IoShutdown, TaskCommit]) == s.(task := Ended, inner := s.inner.(state := Closed))
  {}

  /** As written, a direction shut down after the racing write closes cleanly, TLS
      shutdown and all, with none of the bytes on the wire. */
  lemma CleanCloseWithoutBytes(bytes: seq<Byte>)
    requires 0 < |bytes| <= CHUNK
    ensures var es := RacingWrite(bytes) + TaskTail() + CloseRequest() + CloseRound();
            && ValidRun(Take, INIT, es)
            && var t := Final(Take, INIT, es);
               t.inner.state == Closed && t.wire == Snoc(Nil, CloseNotify) && t.accepted == bytes
  {
    RacingWriteRun(bytes);
    TaskTailRun(bytes, NoWaiter);
    CloseRequestRun(bytes);
    CloseRoundRun(bytes);
    RunAppend(Take, INIT, RacingWrite(bytes), TaskTail());
    RunAppend(Take, INIT, RacingWrite(bytes) + TaskTail(), CloseRequest());
    RunAppend(Take, INIT, RacingWrite(bytes) + TaskTail() + CloseRequest(), CloseRound());
  }

  /** The accepted sequence is frozen from the moment shutdown is requested, and the
      request itself is never taken back. */
  lemma {:induction false} ShutdownFreezes(r: Recheck, s: Sys, es: seq<Event>)
    requires ValidRun(r, s, es) && s.inner.shutdown
    ensures Final(r, s, es).accepted == s.accepted && Final(r, s, es).inner.shutdown
    decreases |es|
  {
    if es != [] {
      ShutdownFreezes(r, Step(r, s, es[0]), es[1..]);
    }
  }

  // ---------------------------------------------------------------- permits

  lemma PermitStep(r: Recheck, s: Sys, e: Event)
    requires Shape(s) && Enabled(s, e) && !e.Guest()
    ensures Step(r, s, e).inner.Permit() >= s.inner.Permit()
    ensures Step(r, s, e).inner.shutdown == s.inner.shutdown
  {}

  lemma {:induction false} PermitGrows(r: Recheck, s: Sys, es: seq<Event>)
    requires Inv(s) && ValidRun(r, s, es) && forall e :: e in es ==> !e.Guest()
    ensures Final(r, s, es).inner.Permit() >= s.inner.Permit()
    ensures Final(r, s, es).inner.shutdown == s.inner.shutdown
    decreases |es|
  {
    if es != [] {
      InvStep(r, s, es[0]);
      PermitStep(r, s, es[0]);
      PermitGrows(r, Step(r, s, es[0]), es[1..]);
    }
  }

  /** However long the task runs on after a `check_write`, a write within its answer
      is taken or sees the stream end; it never traps. */
  lemma PermitIsStable(r: Recheck, es: seq<Event>, later: seq<Event>, bytes: seq<Byte>)
    requires ValidRun(r, INIT, es) && ValidRun(r, Final(r, INIT, es), later)
    requires CheckWriteSection(Final(r, INIT, es).inner).Permitted?
    requires |bytes| <= CheckWriteSection(Final(r, INIT, es).inner).n
    requires forall e :: e in later ==> !e.Guest()
    ensures var t := Final(r, Final(r, INIT, es), later);
            var (i, reply) := WriteSection(t.inner, bytes);
            && (t.inner.state == Open ==> reply == Accepted)
            && (t.inner.state == Closed ==> reply == StreamClosed)
            && (t.inner.state == Failed ==> reply == LastOperationFailed)
            && (reply == Accepted ==> i.queued == t.inner.queued + bytes)
  {
    InvRun(r, INIT, es);
    PermitGrows(r, Final(r, INIT, es), later);
  }

  /** What the guest's stream calls answer, whatever is written. */
  ghost predicate Answers(i: Inner, reply: Reply) {
    && CheckWriteSection(i) == reply && FlushSection(i) == (i, reply)
    && forall bytes: seq<Byte> :: WriteSection(i, bytes) == (i, reply)
  }

  lemma {:induction false} StateSticks(r: Recheck, s: Sys, es: seq<Event>)
    requires Shape(s) && ValidRun(r, s, es) && s.inner.state != Open
    ensures Final(r, s, es).inner.state == s.inner.state
    decreases |es|
  {
    if es != [] {
      ShapeStep(r, s, es[0]);
      StateSticks(r, Step(r, s, es[0]), es[1..]);
    }
  }

  /** After a round that failed every guest call, however late, reports the failure and
      changes nothing; after one that closed the direction every call finds it closed. */
  lemma EndIsReported(r: Recheck, es: seq<Event>, later: seq<Event>)
    requires ValidRun(r, INIT, es) && Enabled(Final(r, INIT, es), TaskCommit)
    requires ValidRun(r, Step(r, Final(r, INIT, es), TaskCommit), later)
    ensures var s := Final(r, INIT, es);
            var t := Final(r, Step(r, s, TaskCommit), later);
            && (s.task.stage == Done(false) ==> Answers(t.inner, LastOperationFailed))
            && (s.task.stage == Done(true) && s.task.shutdown ==> Answers(t.inner, StreamClosed))
  {
    hide ValidRun, Final, Inv;
    var s := Final(r, INIT, es);
    InvRunShape(r, es);
    var u := Step(r, s, TaskCommit);
    ShapeStep(r, s, TaskCommit);
    if u.inner.state != Open {
      StateSticks(r, u, later);
    }
  }

  lemma InvRunShape(r: Recheck, es: seq<Event>)
    requires ValidRun(r, INIT, es)
    ensures Shape(Final(r, INIT, es))
  {
    InvRun(r, INIT, es);
  }

  /** `ready` returns exactly when `check_write` has something to say: room, or an end. */
  lemma ReadyMeansAnswer(i: Inner)
    ensures i.ReadyNow() <==> CheckWriteSection(i) != Permitted(0)
    ensures i.state == Open && !i.shutdown ==>
              (i.ReadyNow() <==> exists bytes: seq<Byte> :: |bytes| == 1 && WriteSection(i, bytes).1 == Accepted)
  {
    if i.state == Open && !i.shutdown {
      assert |[0 as Byte]| == 1;
      assert i.ReadyNow() ==> WriteSection(i, [0]).1 == Accepted;
    }
  }

  /** Memory stays bounded: one chunk queued and one in flight. */
  lemma Bounded(r: Recheck, es: seq<Event>)
    requires ValidRun(r, INIT, es)
    ensures var t := Final(r, INIT, es);
            |t.inner.queued| <= 16384 && |t.inner.queued| + |t.InFlight()| <= 32768
  {
    InvRun(r, INIT, es);
  }
}
