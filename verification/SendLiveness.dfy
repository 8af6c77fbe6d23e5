/**
 Progress: left to itself, with every TLS operation making progress or failing,
 the send direction reaches rest in a bounded number of steps, and at rest it owes
 nobody anything.
 */
module SendLiveness {
  import opened Basics
  import opened SendDirection
  import opened SendInvariants
  import opened SendTheorems

  function One(b: bool): nat { if b then 1 else 0 }

  /** Requests the current I/O round, if any, does not already cover. */
  function Demand(s: Sys): nat {
    var busy := s.task.InIo?;
    if s.task == Ended then 0 else
    One(s.inner.queued != [])
    + One(s.inner.flushing && !(busy && s.task.flushing))
    + One(s.inner.shutdown && !(busy && s.task.shutdown))
  }

  function Rank(s: Sys): nat {
    var work := s.inner.HasWork();
    match s.task
    case Top => if work then 1 else 3
    case Registering => if work then 3 else 2
    case Armed(_) => if work then 2 else 1
    case Asleep(_) => 0
    case Ended => 0
    case InIo(stage, _, _, _) =>
      match stage
      case Write => 8
      case Flush => 7
      case Close => 6
      case CloseSent => 5
      case Done(_) => 4
  }

  /** An upper bound on the steps the runtime can still take by itself. */
  function Measure(s: Sys): nat {
    11 * s.owed
    + 10 * (One(s.permit) + One((s.task.Armed? || s.task.Asleep?) && s.task.slot != Registered))
    + 20 * Demand(s)
    + 2 * (|s.inner.queued| + |s.InFlight()|)
    + Rank(s)
  }

  lemma IoDecreases(r: Recheck, s: Sys, e: Event)
    requires Shape(s) && IoEvent(e) && Enabled(s, e)
    ensures Measure(Step(r, s, e)) < Measure(s)
  {}

  lemma WakeDecreases(r: Recheck, s: Sys, e: Event)
    requires Shape(s) && (e.DeliverWake? || e.TaskArm? || e.TaskRecheck? || e.TaskWake?) && Enabled(s, e)
    ensures Measure(Step(r, s, e)) < Measure(s)
  {}

  lemma SystemDecreases(r: Recheck, s: Sys, e: Event)
    requires Shape(s) && e.System() && Enabled(s, e)
    ensures Measure(Step(r, s, e)) < Measure(s)
  {
    if IoEvent(e) {
      IoDecreases(r, s, e);
    } else if e.DeliverWake? || e.TaskArm? || e.TaskRecheck? || e.TaskWake? {
      WakeDecreases(r, s, e);
    }
  }

  /** No run of the runtime alone is longer than the measure, in either variant. */
  lemma {:induction false} SystemSettles(r: Recheck, s: Sys, es: seq<Event>)
    requires Inv(s) && ValidRun(r, s, es) && forall e :: e in es ==> e.System()
    ensures |es| <= Measure(s)
    decreases |es|
  {
    if es != [] {
      SystemDecreases(r, s, es[0]);
      InvStep(r, s, es[0]);
      SystemSettles(r, Step(r, s, es[0]), es[1..]);
    }
  }

  ghost predicate AtRest(s: Sys) {
    forall e: Event :: e.System() ==> !Enabled(s, e)
  }

  lemma RestingTask(s: Sys)
    requires AtRest(s)
    ensures s.owed == 0 && (s.task == Asleep(Registered) || s.task == Ended)
  {
    assert !Enabled(s, DeliverWake) && !Enabled(s, TaskNext) && !Enabled(s, TaskArm);
    assert !Enabled(s, TaskRecheck) && !Enabled(s, TaskWake) && !Enabled(s, IoFail) && !Enabled(s, TaskCommit);
  }

  /** At rest with the peek: no call parked in `ready` is forgotten, and every
      accepted byte is with the TLS half unless the direction failed. */
  lemma RestIsDrained(es: seq<Event>)
    requires ValidRun(Peek, INIT, es) && AtRest(Final(Peek, INIT, es))
    ensures var t := Final(Peek, INIT, es);
            && !GuestStuck(t)
            && (t.inner.state != Failed ==> WireBytes(t.wire) == t.accepted)
            && (t.inner.state == Open ==> !t.inner.HasWork())
            && (t.inner.shutdown ==> t.inner.state != Open)
  {
    PeekInvRun(INIT, es);
    RestingTask(Final(Peek, INIT, es));
  }

  /** And a call still parked there has its notification: it wakes, looks again and
      returns, without a further step of the runtime. */
  lemma ParkedReadyReturns(es: seq<Event>)
    requires ValidRun(Peek, INIT, es) && AtRest(Final(Peek, INIT, es)) && Final(Peek, INIT, es).waiter.Sleeping?
    ensures var t := Final(Peek, INIT, es);
            && Enabled(t, ReadyWake)
            && var u := Step(Peek, t, ReadyWake);
               Enabled(u, ReadyCheck) && Step(Peek, u, ReadyCheck).waiter == NoWaiter
  {
    RestIsDrained(es);
    PeekInvRun(INIT, es);
    RestingTask(Final(Peek, INIT, es));
  }

  /** As written, at rest: requests are served as with the peek; a call parked in
      `ready` is forgotten if and only if the run stranded it; and unless the direction
      failed, every accepted byte is with the TLS half if and only if no re-check of the
      run found bytes queued. */
  lemma RestAsWrittenIff(es: seq<Event>)
    requires ValidRun(Take, INIT, es) && AtRest(Final(Take, INIT, es))
    ensures var t := Final(Take, INIT, es);
            && (GuestStuck(t) <==> LeavesStranded(INIT, es, false))
            && (t.inner.state != Failed ==> (WireBytes(t.wire) == t.accepted <==> LossFree(Take, INIT, es)))
            && (t.inner.state == Open ==> !t.inner.HasWork())
            && (t.inner.shutdown ==> t.inner.state != Open)
  {
    var t := Final(Take, INIT, es);
    InvRun(Take, INIT, es);
    RestingTask(t);
    StrandedRun(INIT, es, false);
    if t.inner.state != Failed {
      ConservationTakeIff(es);
      DeliveredIff(t);
    }
  }

  /** The racing write again: as written the runtime comes to rest on an open stream
      with the accepted bytes nowhere. */
  lemma RestWithoutBytes(bytes: seq<Byte>)
    requires 0 < |bytes| <= CHUNK
    ensures var es := RacingWrite(bytes) + TaskTail();
            && ValidRun(Take, INIT, es)
            && var t := Final(Take, INIT, es);
               AtRest(t) && t.inner.state == Open && t.accepted == bytes && t.wire == Nil
  {
    AcceptedBytesVanish(bytes);
  }

  /** However a guest came to be stranded, the runtime by itself does not help: any
      run of system steps after it that comes to rest ends in the deadlock. */
  lemma StrandedDeadlocks(es: seq<Event>, e: Event, later: seq<Event>)
    requires ValidRun(Take, INIT, es) && Enabled(Final(Take, INIT, es), e) && Strands(Final(Take, INIT, es), e)
    requires var s := Step(Take, Final(Take, INIT, es), e);
             ValidRun(Take, s, later) && (forall f :: f in later ==> f.System()) && AtRest(Final(Take, s, later))
    ensures var t := Final(Take, Step(Take, Final(Take, INIT, es), e), later);
            TaskStuck(t) && GuestStuck(t)
  {
    var s := Final(Take, INIT, es);
    var u := Step(Take, s, e);
    InvRun(Take, INIT, es);
    InvStep(Take, s, e);
    StrandedLater(u, later);
    RestingTask(Final(Take, u, later));
  }

  lemma {:induction false} StrandedLater(s: Sys, es: seq<Event>)
    requires Stranded(s) && ValidRun(Take, s, es) && forall f :: f in es ==> f.System()
    ensures Stranded(Final(Take, s, es))
    decreases |es|
  {
    if es != [] {
      CoverageRegained(s, es[0]);
      StrandedLater(Step(Take, s, es[0]), es[1..]);
    }
  }

  /** From every state that satisfies the invariant, so from every reachable one, and in
      either variant: if the guest only waits, the runtime can be continued to rest
      within the measure. */
  lemma {:induction false} ReachesRest(r: Recheck, s: Sys) returns (es: seq<Event>)
    requires Inv(s)
    ensures ValidRun(r, s, es) && |es| <= Measure(s) && (forall e :: e in es ==> e.System())
    ensures AtRest(Final(r, s, es))
    decreases Measure(s)
  {
    if AtRest(s) {
      es := [];
    } else {
      var e: Event :| e.System() && Enabled(s, e);
      SystemDecreases(r, s, e);
      InvStep(r, s, e);
      var rest := ReachesRest(r, Step(r, s, e));
      es := [e] + rest;
      assert es[1..] == rest;
      SystemSettles(r, s, es);
    }
  }
}
