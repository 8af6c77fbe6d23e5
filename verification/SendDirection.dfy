/**
 The send direction of a WASI 0.2 TLS tunnel: the guest-facing calls, the
 resident writer task, and the two notification objects between them.

 Every critical section of the shared record is one function on `Inner`.  The
 protocol is a state machine over `Sys`, one event per atomic step: a critical
 section, a `notify_one` that runs after the lock was released, one partial
 outcome of a TLS operation, or one step of `Pollable::ready`.  Events carry all
 nondeterminism, so a run is a sequence of events.
 */
module SendDirection {
  import opened Basics

  /** The most bytes the guest may have queued. */
  const CHUNK: nat := 16384

  // ---------------------------------------------------------------- shared record

  datatype StreamState = Open | Closed | Failed

  datatype Inner = Inner(queued: seq<Byte>, flushing: bool, shutdown: bool, state: StreamState)
  {
    /** How many bytes `check_write` offers while the stream is usable. */
    function Permit(): nat {
      if flushing || |queued| > CHUNK then 0 else CHUNK - |queued|
    }

    predicate HasWork() {
      queued != [] || flushing || shutdown
    }

    /** The condition under which `ready` returns. */
    predicate ReadyNow() {
      (!flushing && |queued| < CHUNK) || state != Open || shutdown
    }
  }

  const FRESH := Inner([], false, false, Open)

  /** What a guest call reports. */
  datatype Reply = Accepted | Permitted(n: nat) | StreamClosed | LastOperationFailed | Trap

  function CheckState(state: StreamState): Reply {
    match state
    case Open => Accepted
    case Closed => StreamClosed
    case Failed => LastOperationFailed
  }

  function WriteSection(i: Inner, bytes: seq<Byte>): (Inner, Reply) {
    if i.state != Open then (i, CheckState(i.state))
    else if i.shutdown then (i, StreamClosed)
    else if |bytes| > i.Permit() then (i, Trap)
    else (i.(queued := i.queued + bytes), Accepted)
  }

  function FlushSection(i: Inner): (Inner, Reply) {
    if i.state != Open then (i, CheckState(i.state))
    else if i.shutdown then (i, StreamClosed)
    else (i.(flushing := true), Accepted)
  }

  function CheckWriteSection(i: Inner): Reply {
    if i.state != Open then CheckState(i.state)
    else if i.shutdown then StreamClosed
    else Permitted(i.Permit())
  }

  /** `request_shutdown`; the flag says whether a wake-up follows. */
  function ShutdownSection(i: Inner): (Inner, bool) {
    if i.state != Open || i.shutdown then (i, false) else (i.(shutdown := true), true)
  }

  datatype Work = Io(chunk: seq<Byte>, flushing: bool, shutdown: bool) | Wait | End

  /** The consuming look at the queue: on `Io` the whole queue leaves with it. */
  function NextWork(i: Inner): (Inner, Work) {
    if i.state != Open then (i, End)
    else if !i.HasWork() then (i, Wait)
    else (i.(queued := []), Io(i.queued, i.flushing, i.shutdown))
  }

  /** The critical section that ends one I/O round. */
  function CommitSection(i: Inner, flushing: bool, shutdown: bool, ok: bool): Inner {
    if !ok then i.(state := Failed)
    else
      var j := if flushing && i.queued == [] then i.(flushing := false) else i;
      if shutdown then j.(state := Closed) else j
  }

  // ---------------------------------------------------------------- protocol state

  /** The task's interest in `wake`: registered, notified while registered, or a
      stored permit consumed when interest was registered. */
  datatype Slot = Registered | Notified | Consumed

  datatype Stage = Write | Flush | Close | CloseSent | Done(ok: bool)

  datatype Task =
    | Top                       // about to look for work
    | Registering               // found none; interest not yet registered
    | Armed(slot: Slot)         // registered; the second look comes next
    | Asleep(slot: Slot)        // awaiting the wake-up
    | InIo(stage: Stage, rest: seq<Byte>, flushing: bool, shutdown: bool)
    | Ended

  /** The one `ready` call that can be in flight. */
  datatype Waiter = NoWaiter | Arming(notified: bool) | Sleeping(notified: bool)

  /** A history, newest entry last. */
  datatype Log<T> = Nil | Snoc(earlier: Log<T>, last: T)

  datatype WireEvent = Data(bytes: seq<Byte>) | FlushEvent | CloseNotify

  datatype Fate = Sent | Discarded | Aborted

  /** What became of bytes that left the queue together. */
  datatype Entry = Entry(bytes: seq<Byte>, fate: Fate)

  /** `accepted` and the two logs record history: every byte a guest write was
      granted, what became of each byte that left the queue, and what reached the
      TLS half. */
  datatype Sys = Sys(
    inner: Inner, task: Task, permit: bool, owed: nat, waiter: Waiter,
    accepted: seq<Byte>, ledger: Log<Entry>, wire: Log<WireEvent>)
  {
    /** Bytes taken from the queue that the current write has not handed over. */
    function InFlight(): seq<Byte> {
      if task.InIo? then task.rest else []
    }
  }

  const INIT := Sys(FRESH, Top, false, 0, NoWaiter, [], Nil, Nil)

  /** The writer task's second look at the queue, after it registered for a wake-up: as
      the source's comment intends it, or as it is written. */
  datatype Recheck = Peek | Take

  datatype Event =
    | GuestWrite(bytes: seq<Byte>)
    | GuestFlush
    | GuestShutdown
    | DeliverWake
    | TaskNext
    | TaskArm
    | TaskRecheck
    | TaskWake
    | IoWrite(n: nat)
    | IoWritten
    | IoFlushed
    | IoCloseNotify
    | IoShutdown
    | IoFail
    | TaskCommit
    | ReadyArm
    | ReadyCheck
    | ReadyWake
    | ReadyCancel
  {
    predicate Guest() { GuestWrite? || GuestFlush? || GuestShutdown? }

    /** Steps the runtime takes on its own, without any further guest call. */
    predicate System() { !Guest() && !ReadyArm? && !ReadyCheck? && !ReadyWake? && !ReadyCancel? }
  }

  predicate Enabled(s: Sys, e: Event) {
    match e
    case GuestWrite(_) => true
    case GuestFlush => true
    case GuestShutdown => true
    case DeliverWake => s.owed > 0
    case TaskNext => s.task == Top
    case TaskArm => s.task == Registering
    case TaskRecheck => s.task.Armed?
    case TaskWake => s.task.Asleep? && s.task.slot != Registered
    case IoWrite(n) => s.task.InIo? && s.task.stage == Write && 0 < n <= |s.task.rest|
    case IoWritten => s.task.InIo? && s.task.stage == Write && s.task.rest == []
    case IoFlushed => s.task.InIo? && s.task.stage == Flush
    case IoCloseNotify => s.task.InIo? && s.task.stage == Close
    case IoShutdown => s.task.InIo? && s.task.stage == CloseSent
    case IoFail => s.task.InIo? && !s.task.stage.Done?
    case TaskCommit => s.task.InIo? && s.task.stage.Done?
    case ReadyArm => s.waiter == NoWaiter
    case ReadyCheck => s.waiter.Arming?
    case ReadyWake => s.waiter == Sleeping(true)
    case ReadyCancel => s.waiter != NoWaiter
  }

  /** `Notify::notify_one`: a registered waiter is notified, otherwise one permit is stored. */
  function NotifyTask(s: Sys): Sys {
    match s.task
    case Armed(Registered) => s.(task := Armed(Notified))
    case Asleep(Registered) => s.(task := Asleep(Notified))
    case _ => s.(permit := true)
  }

  /** `Notify::notify_waiters`: wakes a registered `ready`, stores nothing. */
  function NotifyWaiter(w: Waiter): Waiter {
    match w
    case NoWaiter => NoWaiter
    case Arming(_) => Arming(true)
    case Sleeping(_) => Sleeping(true)
  }

  /** Dropping the unawaited interest: a notification it holds is passed on, which
      with no other waiter stores it again; a permit consumed earlier is gone. */
  function DropInterest(s: Sys): Sys
    requires s.task.Armed?
  {
    s.(task := Top, permit := s.permit || s.task.slot == Notified)
  }

  function AfterWrite(flushing: bool, shutdown: bool): Stage {
    if flushing then Flush else if shutdown then Close else Done(true)
  }

  /** The re-check.  Work found by a consuming look is dropped with the look's result. */
  function RecheckStep(r: Recheck, s: Sys): Sys
    requires s.task.Armed?
  {
    var (i, work) := NextWork(s.inner);
    match work
    case Wait => s.(task := Asleep(s.task.slot))
    case End => DropInterest(s)
    case Io(chunk, _, _) =>
      if r == Peek then DropInterest(s)
      else DropInterest(s).(
             inner := i,
             ledger := if chunk == [] then s.ledger else Snoc(s.ledger, Entry(chunk, Discarded)))
  }

  function GuestStep(s: Sys, e: Event): Sys
    requires e.Guest()
  {
    match e
    case GuestWrite(bytes) =>
      var (i, reply) := WriteSection(s.inner, bytes);
      if reply == Accepted
      then s.(inner := i, accepted := s.accepted + bytes, owed := s.owed + 1)
      else s
    case GuestFlush =>
      var (i, reply) := FlushSection(s.inner);
      if reply == Accepted then s.(inner := i, owed := s.owed + 1) else s
    case GuestShutdown =>
      var (i, wake) := ShutdownSection(s.inner);
      if wake then s.(inner := i, owed := s.owed + 1) else s
  }

  function ReadyStep(s: Sys, e: Event): Sys
    requires e.ReadyArm? || e.ReadyCheck? || e.ReadyWake? || e.ReadyCancel?
    requires Enabled(s, e)
  {
    match e
    case ReadyArm => s.(waiter := Arming(false))
    case ReadyCheck =>
      if s.inner.ReadyNow() then s.(waiter := NoWaiter) else s.(waiter := Sleeping(s.waiter.notified))
    case ReadyWake => s.(waiter := Arming(false))
    case ReadyCancel => s.(waiter := NoWaiter)
  }

  function SystemStep(r: Recheck, s: Sys, e: Event): Sys
    requires e.System() && Enabled(s, e)
  {
    match e
    case DeliverWake => NotifyTask(s.(owed := s.owed - 1))
    case TaskNext =>
      var (i, work) := NextWork(s.inner);
      (match work
       case End => s.(task := Ended)
       case Wait => s.(task := Registering)
       case Io(chunk, f, d) => s.(inner := i, task := InIo(Write, chunk, f, d)))
    case TaskArm =>
      s.(task := Armed(if s.permit then Consumed else Registered), permit := false)
    case TaskRecheck => RecheckStep(r, s)
    case TaskWake => s.(task := Top)
    case IoWrite(n) =>
      s.(task := s.task.(rest := s.task.rest[n..]),
         ledger := Snoc(s.ledger, Entry(s.task.rest[..n], Sent)),
         wire := Snoc(s.wire, Data(s.task.rest[..n])))
    case IoWritten => s.(task := s.task.(stage := AfterWrite(s.task.flushing, s.task.shutdown)))
    case IoFlushed =>
      s.(task := s.task.(stage := if s.task.shutdown then Close else Done(true)),
         wire := Snoc(s.wire, FlushEvent))
    case IoCloseNotify => s.(task := s.task.(stage := CloseSent), wire := Snoc(s.wire, CloseNotify))
    case IoShutdown => s.(task := s.task.(stage := Done(true)))
    case IoFail =>
      s.(task := s.task.(stage := Done(false), rest := []),
         ledger := Snoc(s.ledger, Entry(s.task.rest, Aborted)))
    case TaskCommit =>
      var i := CommitSection(s.inner, s.task.flushing, s.task.shutdown, s.task.stage.ok);
      s.(inner := i,
         task := if s.task.stage.ok && !s.task.shutdown then Top else Ended,
         waiter := NotifyWaiter(s.waiter))
  }

  function Step(r: Recheck, s: Sys, e: Event): Sys
    requires Enabled(s, e)
  {
    if e.Guest() then GuestStep(s, e)
    else if e.System() then SystemStep(r, s, e)
    else ReadyStep(s, e)
  }

  // ---------------------------------------------------------------- runs

  predicate ValidRun(r: Recheck, s: Sys, es: seq<Event>)
    decreases |es|
  {
    es == [] || (Enabled(s, es[0]) && ValidRun(r, Step(r, s, es[0]), es[1..]))
  }

  function Final(r: Recheck, s: Sys, es: seq<Event>): Sys
    requires ValidRun(r, s, es)
    decreases |es|
  {
    if es == [] then s else Final(r, Step(r, s, es[0]), es[1..])
  }

  /** The step that throws accepted bytes away: the consuming re-check finds a queue. */
  predicate Discards(r: Recheck, s: Sys, e: Event) {
    r == Take && e == TaskRecheck && s.inner.state == Open && s.inner.queued != []
  }

  predicate LossFree(r: Recheck, s: Sys, es: seq<Event>)
    requires ValidRun(r, s, es)
    decreases |es|
  {
    es == [] || (!Discards(r, s, es[0]) && LossFree(r, Step(r, s, es[0]), es[1..]))
  }

  // ---------------------------------------------------------------- reading the logs

  function Settled(ledger: Log<Entry>): seq<Byte> {
    match ledger
    case Nil => []
    case Snoc(l, e) => Settled(l) + e.bytes
  }

  function Of(ledger: Log<Entry>, fate: Fate): seq<Byte> {
    match ledger
    case Nil => []
    case Snoc(l, e) => if e.fate == fate then Of(l, fate) + e.bytes else Of(l, fate)
  }

  /** The plaintext the TLS half was given, in order. */
  function WireBytes(wire: Log<WireEvent>): seq<Byte> {
    match wire
    case Nil => []
    case Snoc(w, e) => if e.Data? then WireBytes(w) + e.bytes else WireBytes(w)
  }

  function CloseNotifies(wire: Log<WireEvent>): nat {
    match wire
    case Nil => 0
    case Snoc(w, e) => if e == CloseNotify then CloseNotifies(w) + 1 else CloseNotifies(w)
  }

  /** A TLS flush succeeded and no byte followed it. */
  predicate FlushedLast(wire: Log<WireEvent>) {
    match wire
    case Nil => false
    case Snoc(w, e) => e == FlushEvent || (e == CloseNotify && FlushedLast(w))
  }
}
