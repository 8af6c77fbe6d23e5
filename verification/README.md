# Verified models of polymorph-tls

This project models the parts of polymorph-tls whose correctness does not show on
the page, and proves what they promise over every input, every interleaving and
every run. `dafny verify dfyconfig.toml` checks everything.

| files | what is modelled |
|---|---|
| `Basics` | bytes and options, shared by the rest |
| `SendDirection`, `SendInvariants`, `SendTheorems`, `SendLiveness`, `SendControl` | the send direction of a WASI 0.2 tunnel: guest calls, the writer task, the two notifications between them (`rust/tls-virt-wasmtime/src/p2.rs`) |
| `Pump`, `PumpInvariants`, `PumpTheorems`, `PumpHistory`, `PumpObjects` | the three-task connection pump around one rustls connection (`rust/component/src/pump.rs`) |
| `Handles`, `Resolver`, `ControlPlane`, `ControlPlaneTheorems`, `ControlObjects` | opted-in names, handle addresses, the draining resolver, two-phase connect, the side maps keyed by recycled indices (`rust/tls-virt-common/src/lib.rs`, `p2.rs`, `main.rs`) |
| `SendConsumer` | the 0.3 send consumer and its one verdict (`rust/tls-virt-wasmtime/src/main.rs`) |
| `HeaderProtection` | QUIC header protection in place (`rust/quic/src/packet.rs`) |
| `Welford`, `CroppedT` | the online statistics and the cropped t-test (`timing-lab/src/stats.rs`) |

The concurrent parts are state machines with one event per atomic step: a critical
section, a notification delivered after the lock was released, a partial outcome of a
TLS operation, or everything a cooperative task does between two awaits. Events carry
all nondeterminism (what the peer sends, how I/O splits or fails, when anything
happens), so a run is a sequence of events and a theorem about all runs is a theorem
about all such sequences. Objects the source updates in place are classes whose methods
are proved against the same functions the machines step by.

## Findings

- **The re-check of the writer task loses accepted bytes.** The look at
  `rust/tls-virt-wasmtime/src/p2.rs:265` takes the queue and drops what it took; the
  comment above it describes a look that takes nothing. Both are modelled (`Take` is the
  code, `Peek` the comment). `LossFreeIsPeek` carries every theorem on `Peek` over to the
  code's runs in which no re-check finds bytes queued, and for each property that fails
  the run and the exact condition are given:
  - bytes are conserved over a run exactly when no re-check of it finds bytes queued
    (`ConservationTakeIff`); `AcceptedBytesVanish` and `RestWithoutBytes` give the run in
    which the bytes of an open stream are gone for good;
  - a flush that completes has the bytes accepted before it on the wire exactly under
    the same condition on the run up to its commit (`FlushFenceTakeIff`);
    `FlushFenceFailsAsWritten` gives the run in which it completes with none of them there;
  - close_notify follows every accepted byte exactly under that condition
    (`CloseNotifyCompleteIff`); `CleanCloseWithoutBytes` gives the run in which the
    direction closes cleanly without them;
  - task and guest sleep on each other exactly when a re-check threw away the only work
    a call parked in `ready` was waiting on, with no flush or shutdown requested, and the
    guest neither gave up waiting nor made new work since (`DeadlockIff`,
    `RestAsWrittenIff`). A run with no such step never deadlocks
    (`NoDeadlockUnlessStranded`); after such a step the runtime by itself always ends in
    the deadlock (`StrandedDeadlocks`); `DeadlockAsWritten` gives the run.
- **The handshake signal is raised at most once, not exactly once**
  (`rust/component/src/pump.rs:92-93`). `SignalMissingIff`: it is missing exactly when the
  reader left on a clean close while still handshaking; `SignalMissingForEver`: then it is
  never raised, and since `run` keeps a sender of its own alive the waiting call does not
  return. `SignalCanBeMissing` shows such a run of the pump; it rests on rustls reporting
  `peer_has_closed` while still handshaking, which nothing in the repository establishes or
  rules out.
- **`take_complete` consumes a lone send wiring** (`rust/component/src/pump.rs:69-78`): the
  ends are taken one by one, so a call made before `receive` was wired drops the send
  ends, while a lone receive wiring survives (`PumpObjects.Wired.TakeComplete`).
- **The pump closes the stream without asking whether rustls was drained**
  (`rust/component/src/pump.rs:125-136`, `291-309`). A break in a drain, or a write that
  fails with output pending, leaves bytes in rustls that no later drain need pick up: the
  closed stream carried everything exactly when the drains of the run left nothing
  (`ClosesCompleteIff`), as when each ran to its end and no write failed with output left
  (`ClosesComplete`). `BrokenDrainLeavesBytes` and `FailedWriteLeavesBytes` give the two
  runs of the pump, each ending closed on a reading transport with nothing emitted. They
  rest on rustls answering `write_tls` into a vector with zero or an error while
  `wants_write` holds, or failing `write_all` after it produced records, which nothing in
  the repository establishes or rules out.
- Never reached: the clean-close test on the stream status
  (`rust/component/src/pump.rs:263-265`, `LateCloseIsDead`), the pass-through return of the
  resolver loop (`rust/tls-virt-wasmtime/src/p2.rs:805-807`, `Resolutions.ResolveNext`), and
  the unreachable remote of a dialled handle (`rust/tls-virt-wasmtime/src/p2.rs:501-502`,
  `StartReplies`), since every minted entry has an address.

## Assumptions

- tokio `Notify`: `notify_one` notifies a registered waiter or stores one permit;
  registering consumes a stored permit; a notified waiter dropped unawaited passes its
  notification on, one that had consumed a permit does not; `notify_waiters` wakes what is
  registered and stores nothing.
- rustls: it leaves handshaking only while processing packets; plaintext is handed out in
  order until none is left; a zero-length read of plaintext happens only after the peer's
  close_notify. What it produces, finds or rejects is arbitrary, and so is when the peer's
  close is reported, during the handshake included. A `write_tls` may break off and a
  `write_all` may fail with records produced; where a result needs that they do not, it says so.
- A resource borrowed by a call in progress cannot be dropped; table indices are reused freely.
- TLS writes take a non-empty prefix or fail; flush and shutdown succeed or fail. The
  progress results are about runs in which they do one of these.

## Model

| member | source | states |
|---|---|---|
| `SendControl.WriteCtl.constructor` | rust/tls-virt-wasmtime/src/p2.rs:218-231 | a fresh direction is open, with nothing queued or requested |
| `SendControl.WriteCtl.Write` | rust/tls-virt-wasmtime/src/p2.rs:311-329 | a failed direction answers the failure, a closed or shut-down one that it is closed; otherwise bytes within the free part of the chunk are queued, none at all are accepted even while flushing, and more trap; any other reply than acceptance leaves the record untouched |
| `SendControl.WriteCtl.FlushCall` | rust/tls-virt-wasmtime/src/p2.rs:331-341 | an open direction starts flushing; a failed one answers the failure, a closed or shut-down one that it is closed |
| `SendControl.WriteCtl.CheckWrite` | rust/tls-virt-wasmtime/src/p2.rs:343-354 | the offered permit is the free part of the chunk and exactly the set of write sizes that would be accepted now; a failed direction answers the failure, a closed or shut-down one that it is closed |
| `SendControl.WriteCtl.RequestShutdown` | rust/tls-virt-wasmtime/src/p2.rs:386-394 | the first request on an open direction sets the flag and owes a wake-up; any other does nothing |
| `SendControl.WriteCtl.TakeWork` | rust/tls-virt-wasmtime/src/p2.rs:244-254 | ends exactly when the direction is not open, waits exactly when nothing is queued or requested, and otherwise takes the whole queue with the two flags |
| `SendControl.WriteCtl.Commit` | rust/tls-virt-wasmtime/src/p2.rs:282-301 | the end of one I/O round: which flags fall, which terminal state is entered, whether the task ends |
| `SendControl.IoRound` | rust/tls-virt-wasmtime/src/p2.rs:273-301 | one round of the task: on success the whole chunk, then the flush asked for, then close_notify; on failure a prefix of the chunk and a failed direction |
| `SendInvariants.InvRun` | rust/tls-virt-wasmtime/src/p2.rs:238-394 | every run of either variant keeps the account of bytes, the shape of the wire, the task's place and its wake-ups |
| `SendInvariants.WakeKept` | rust/tls-virt-wasmtime/src/p2.rs:258-269 | a wake-up stored or delivered is used up only by registering for one or by waking |
| `SendTheorems.ConservationPeek` | rust/tls-virt-wasmtime/src/p2.rs:238-329 | with the intended re-check, in every interleaving, accepted bytes are written ++ cut off by a failure ++ in flight ++ queued; nothing is cut off before a failure; the wire is a prefix |
| `SendTheorems.LossFreeIsPeek` | rust/tls-virt-wasmtime/src/p2.rs:255-271 | a run of the code in which no re-check finds bytes is the same run with the intended re-check |
| `SendTheorems.ConservationTakeIff` | rust/tls-virt-wasmtime/src/p2.rs:255-271 | the code conserves bytes over a run if and only if no re-check of it finds bytes queued |
| `SendTheorems.ConservationTake` | rust/tls-virt-wasmtime/src/p2.rs:238-329 | in either variant every accepted byte is settled, in flight or queued, in order, and the wire is a subsequence of what was accepted |
| `SendTheorems.AcceptedBytesVanish` | rust/tls-virt-wasmtime/src/p2.rs:258-269 | for any non-empty permitted write, the run of the code in which it succeeds and its bytes vanish |
| `SendTheorems.NoLostWake` | rust/tls-virt-wasmtime/src/p2.rs:255-270 | in either variant a task asleep with no wake stored or owed has no work |
| `SendTheorems.NoDeadlockPeek` | rust/tls-virt-wasmtime/src/p2.rs:255-302 | with the intended re-check the sleeping task and an un-notified sleeping `ready` never occur together |
| `SendTheorems.DeadlockIff` | rust/tls-virt-wasmtime/src/p2.rs:255-302 | with the task asleep and nothing stored or owed, a parked `ready` sleeps un-notified if and only if a re-check of the run threw away the only work it waited on and no later event of the guest helped |
| `SendTheorems.NoDeadlockUnlessStranded` | rust/tls-virt-wasmtime/src/p2.rs:359-373 | a run of the code with no such re-check never ends with both asleep, bytes lost or not |
| `SendTheorems.DeadlockAsWritten` | rust/tls-virt-wasmtime/src/p2.rs:258-269 | for any full-chunk write, the run of the code that ends with both asleep and nothing stored or owed |
| `SendTheorems.DeadlockIsFinal` | rust/tls-virt-wasmtime/src/p2.rs:359-373 | from there only a new guest call or abandoning `ready` is possible |
| `SendTheorems.FlushStep` | rust/tls-virt-wasmtime/src/p2.rs:282-287 | while flushing nothing is accepted, the emptiness test in the commit always holds, and the flag falls only in a commit after a TLS flush with no byte behind it |
| `SendTheorems.FlushFence` | rust/tls-virt-wasmtime/src/p2.rs:331-341 | when a flush pending at some point of a run is over at a later one, a TLS flush succeeded with exactly the bytes accepted by the first point before it |
| `SendTheorems.FlushFenceTakeIff` | rust/tls-virt-wasmtime/src/p2.rs:282-287 | as written, a pending flush that is over at a later point ended in a commit behind a TLS flush, and the bytes accepted before it were on the wire there if and only if no re-check up to that commit found bytes queued |
| `SendTheorems.FlushFenceFailsAsWritten` | rust/tls-virt-wasmtime/src/p2.rs:258-286 | the run of the code in which a flush completes with none of the bytes written before it on the wire |
| `SendTheorems.CloseNotifyOnce` | rust/tls-virt-wasmtime/src/p2.rs:277-292 | close_notify goes out at most once, last, with nothing queued or in flight and everything the task took settled; `Closed` means it went out |
| `SendTheorems.CloseNotifyIsComplete` | rust/tls-virt-wasmtime/src/p2.rs:277-292 | with the intended re-check it follows every accepted byte |
| `SendTheorems.CloseNotifyCompleteIff` | rust/tls-virt-wasmtime/src/p2.rs:255-292 | as written it follows every accepted byte if and only if no re-check of the run found bytes queued |
| `SendTheorems.CleanCloseWithoutBytes` | rust/tls-virt-wasmtime/src/p2.rs:258-292 | the run of the code that ends `Closed`, close_notify sent, with none of the accepted bytes on the wire |
| `SendTheorems.ClosedOnlyAfterShutdown` | rust/tls-virt-wasmtime/src/p2.rs:277-292 | a run that ends `Closed` contains a TLS shutdown that succeeded |
| `SendTheorems.ShutdownFreezes` | rust/tls-virt-wasmtime/src/p2.rs:311-316 | from the moment shutdown is requested nothing more is ever accepted and the request stands |
| `SendTheorems.PermitIsStable` | rust/tls-virt-wasmtime/src/p2.rs:311-355 | after a `check_write` and any steps that are not guest calls, a write within its answer is taken, or sees the stream closed or the failure reported, and never traps |
| `SendTheorems.EndIsReported` | rust/tls-virt-wasmtime/src/p2.rs:132-139 | after a round that failed every write, flush and `check_write`, however late, answers the failure; after one that closed the direction every one answers that it is closed |
| `SendTheorems.ReadyMeansAnswer` | rust/tls-virt-wasmtime/src/p2.rs:359-373 | `ready` returns exactly when `check_write` offers room or an end, and on a usable stream exactly when a byte could be written |
| `SendTheorems.Bounded` | rust/tls-virt-wasmtime/src/p2.rs:244-254 | at most one chunk queued and two held in all |
| `SendLiveness.SystemSettles` | rust/tls-virt-wasmtime/src/p2.rs:238-303 | no run of the runtime by itself is longer than a measure of the state it starts in |
| `SendLiveness.RestIsDrained` | rust/tls-virt-wasmtime/src/p2.rs:233-237 | at rest, with the intended re-check, no `ready` is forgotten, all accepted bytes are with TLS unless the direction failed, and a requested shutdown is over |
| `SendLiveness.ParkedReadyReturns` | rust/tls-virt-wasmtime/src/p2.rs:359-373 | and a `ready` still asleep there has been notified: it wakes, finds room or an end, and returns |
| `SendLiveness.RestAsWrittenIff` | rust/tls-virt-wasmtime/src/p2.rs:233-303 | at rest, as written: a `ready` is forgotten if and only if the run stranded it; unless the direction failed all accepted bytes are with TLS if and only if no re-check found any queued; no work is left open and a requested shutdown is over |
| `SendLiveness.RestWithoutBytes` | rust/tls-virt-wasmtime/src/p2.rs:258-269 | the run of the code that comes to rest on an open stream with the accepted bytes gone |
| `SendLiveness.StrandedDeadlocks` | rust/tls-virt-wasmtime/src/p2.rs:258-302 | after a re-check that strands a parked `ready`, every continuation by the runtime alone that comes to rest has both asleep |
| `SendLiveness.ReachesRest` | rust/tls-virt-wasmtime/src/p2.rs:233-237 | in either variant, from every state that satisfies the invariant of `InvRun`, the runtime can be continued by its own steps and within the measure to rest |
| `PumpObjects.DrainTlsWrites` | rust/component/src/pump.rs:125-136 | moves records from rustls to the queue in order and without loss, however they are split, breaks included |
| `PumpObjects.ReadAvailablePlaintext` | rust/component/src/pump.rs:139-160 | returns all decrypted bytes in order; end of file only after the peer closed |
| `PumpObjects.FeedBuffer` | rust/component/src/pump.rs:218-245 | the loop over one buffer gives rustls exactly the packets up to the first empty read, failed read or packet error, alerts flushed, and fails exactly if that first stop is an error |
| `PumpObjects.Handshake.CheckSignal` | rust/component/src/pump.rs:98-112 | sends the outcome once the handshake is over and only if nothing was sent yet: the negotiated protocol, and on a server the name asked for |
| `PumpObjects.Handshake.FailSignal` | rust/component/src/pump.rs:114-118 | sends the failure message only if nothing was sent yet |
| `PumpObjects.Wired.WireSend` | rust/component/src/pump.rs:45-55 | wires the send direction as a whole, leaves the other alone, and hands out the reading ends of the stream and future whose writing ends it keeps |
| `PumpObjects.Wired.WireReceive` | rust/component/src/pump.rs:57-67 | the same for the receive direction |
| `PumpObjects.Wired.TakeComplete` | rust/component/src/pump.rs:69-78 | complete exactly when both directions are wired; called early it keeps a receive wiring and consumes a send wiring |
| `PumpInvariants.DrainKeeps` | rust/component/src/pump.rs:125-136 | queue ++ pending is unchanged by draining |
| `PumpInvariants.FeedHolds` | rust/component/src/pump.rs:218-250 | feeding any packets conserves ciphertext and plaintext and never re-enters the handshake; the clean flag is up only after close_notify, and on a connection not closed before, after a buffer that did not fail, exactly then |
| `PumpInvariants.FeedFails` | rust/component/src/pump.rs:221-244 | a buffer fails if and only if the first of its passes that is not processed is an error |
| `PumpInvariants.FeedBecomes` | rust/component/src/pump.rs:221-244 | what rustls produces, decrypts, sees closed and completes is what the packets up to the first failure say, in order |
| `PumpInvariants.InvRun` | rust/component/src/pump.rs:164-332 | every interleaving keeps both byte accounts, the ownership of stream ends, the signal and the truncation rule |
| `PumpTheorems.CiphertextConserved` | rust/component/src/pump.rs:125-136 | what rustls produced is emitted ++ given up ++ being written ++ queued ++ pending, in order; nothing is given up while the transport reads |
| `PumpTheorems.CleartextBeforeVerdict` | rust/component/src/pump.rs:200-276 | all plaintext decrypted is delivered in order before the verdict while the consumer reads |
| `PumpTheorems.VerdictIff` | rust/component/src/pump.rs:206-276 | the step that makes the reader leave gives `Ok` if and only if close_notify was seen and the buffer it ends did not fail |
| `PumpHistory.VerdictOfRun` | rust/component/src/pump.rs:206-276 | over every run and by its events alone: the receive verdict is `Ok` if and only if some packet carried close_notify and the last buffer did not fail |
| `PumpHistory.BufferOutcome` | rust/component/src/pump.rs:246-270 | a buffer's plaintext goes to delivery if there is any; otherwise the reader leaves exactly if the buffer failed, the peer closed or the transport ended |
| `PumpHistory.FailureIsReported` | rust/component/src/pump.rs:238-257 | a failing buffer without plaintext makes the reader leave with an error at once, the handshake signal no longer pending; one with plaintext is marked as failed for delivery |
| `PumpHistory.DeliveredFailureIsReported` | rust/component/src/pump.rs:251-257 | and then the reader leaves with an error as soon as the plaintext is delivered, the signal no longer pending |
| `PumpHistory.EmptyOutcome` | rust/component/src/pump.rs:262-270 | a read without bytes changes nothing unless the transport ended, which is then an error |
| `PumpHistory.DeliveryProgress` | rust/component/src/pump.rs:251-253 | a delivery can always go on, and ends at once when the consumer is gone |
| `PumpHistory.ConnectionExplained` | rust/component/src/pump.rs:164-310 | over every run rustls produced the first flight and then, in order, what each buffer, write and close made it produce, decrypted what the buffers held up to their first failure, and is closed or past the handshake as the packets say |
| `PumpHistory.WriterVerdictIff` | rust/component/src/pump.rs:285-318 | the writer leaves exactly on a failed write or the end of its stream, with `Ok` exactly if no write failed |
| `PumpTheorems.EndedLeaves` | rust/component/src/pump.rs:262-270 | a transport that ends makes the reader leave, at once or after delivering |
| `PumpTheorems.VerdictStays` | rust/component/src/pump.rs:272-275 | a verdict does not change afterwards |
| `PumpTheorems.LateCloseIsDead` | rust/component/src/pump.rs:262-270 | the clean flag is down at every loop head, so an ending status there always reports truncation |
| `PumpTheorems.SignalAtMostOnce` | rust/component/src/pump.rs:97-119 | at most one signal; `Ok` if and only if the handshake is over, `Err` only during it; a reader that failed has raised it |
| `PumpTheorems.SignalMissingIff` | rust/component/src/pump.rs:246-260 | once the reader left, the signal is missing if and only if it left on a clean close while handshaking |
| `PumpTheorems.SignalMissingForEver` | rust/component/src/pump.rs:193-197 | then no later step raises it |
| `PumpTheorems.SignalCanBeMissing` | rust/component/src/pump.rs:246-260 | the run in which that happens |
| `PumpTheorems.EndsReleased` | rust/component/src/pump.rs:202-205 | a task that left its loop holds no stream end, whether or not its verdict is read |
| `PumpTheorems.ClosesIff` | rust/component/src/pump.rs:324-332 | the ciphertext stream closes exactly when both producers left and the queue is drained |
| `PumpTheorems.ClosesCompleteIff` | rust/component/src/pump.rs:125-136 | at closure everything rustls produced went to the stream or was given up by a transport that had gone, if and only if the drains of the run, by their sizes, left nothing |
| `PumpTheorems.ClosesComplete` | rust/component/src/pump.rs:125-136 | that is so when every drain ran to its end and no write failed with output left; while the transport reads, all of it is on the stream |
| `PumpTheorems.BrokenDrainLeavesBytes` | rust/component/src/pump.rs:125-136 | for any first flight, the run in which its drain breaks off and the stream closes with none of it emitted |
| `PumpTheorems.FailedWriteLeavesBytes` | rust/component/src/pump.rs:291-309 | for any output of a write that fails, the run in which the stream closes with none of it emitted |
| `PumpTheorems.TransmitBounded` | rust/component/src/pump.rs:318-332 | with both loops left, transmit steps are bounded by the queue, whatever else happens |
| `PumpTheorems.TransmitProgress` | rust/component/src/pump.rs:318-332 | and one is enabled until the stream is closed, even if no verdict is ever read |
| `PumpTheorems.ReachesClosure` | rust/component/src/pump.rs:318-332 | so from every reachable state with both loops left, transmit steps alone, within that bound, close the stream |
| `Handles.StripSuffix` | rust/tls-virt-common/src/lib.rs:32-34 | yields a host if and only if the name is that host with the suffix |
| `Handles.PickAddr` | rust/tls-virt-common/src/lib.rs:101-107 | the first IPv6 address, else the first address, else none |
| `Handles.LookupIsNewest` | rust/tls-virt-common/src/lib.rs:71-91 | after any mints, lookup finds the newest entry minted as exactly that address and nothing otherwise |
| `Handles.ForeignHandle` | rust/tls-virt-common/src/lib.rs:84-91 | tables under different prefixes never recognise each other's handles |
| `Handles.HandleTable.constructor` | rust/tls-virt-common/src/lib.rs:57-65 | the prefix lies in fd00::/8 |
| `Handles.HandleTable.MintHandle` | rust/tls-virt-common/src/lib.rs:71-80 | the new handle lies in fd00::/8, finds its entry, and no other address changes meaning |
| `Handles.HandleTable.LookupHandle` | rust/tls-virt-common/src/lib.rs:84-91 | lookup is the newest mint of that address |
| `Resolver.CallAnswers` | rust/tls-virt-wasmtime/src/p2.rs:800-827 | one draining call by where the wrapped stream first stops giving addresses: all before it are kept; an error is passed on with its code; an end is answered by the handle for all of them, or by name-unresolvable if there were none; otherwise it would block |
| `Resolver.CallAfterEnd` | rust/tls-virt-wasmtime/src/p2.rs:800-827 | after the answer a call only passes on errors and otherwise says there is nothing more |
| `Resolver.OneHandle` | rust/tls-virt-wasmtime/src/p2.rs:792-828 | for every pattern of addresses, errors and ends and any number of calls, only errors are answered while draining and afterwards exactly one handle, for the name with all addresses in order, or none if there were none |
| `Resolver.AtMostOneAddress` | rust/tls-virt-wasmtime/src/p2.rs:792-828 | two address answers of one resolution are the same answer |
| `Resolver.Resolutions.ResolveNext` | rust/tls-virt-wasmtime/src/p2.rs:800-827 | the loop does one call's work on its own entry and on no other; its entry is there on every pass |
| `ControlPlaneTheorems.SideMapsNameTheLive` | rust/tls-virt-wasmtime/src/p2.rs:756-760 | over all runs with index reuse every side-map key names the live resource it was made for, so a reused index starts clean |
| `ControlPlaneTheorems.StreamsHandedOutOnce` | rust/tls-virt-wasmtime/src/p2.rs:541-590 | streams are handed out once per handshake, only if the run holds the address check that let it pass and the success it ended with, towards one minted entry's picked address and name |
| `ControlPlaneTheorems.OutcomeReported` | rust/tls-virt-wasmtime/src/p2.rs:505-566 | however a handshake ended, and however much later it is asked, the first `finish_connect` on its socket tells exactly that: streams, or the very code, access-denied after a refused check |
| `ControlPlaneTheorems.ReportedWasConcluded` | rust/tls-virt-wasmtime/src/p2.rs:505-566 | and only that: every outcome it tells was reached by the handshake in this run; one that died tells none |
| `ControlPlaneTheorems.FinishBlocksIff` | rust/tls-virt-wasmtime/src/p2.rs:541-566 | `finish_connect` would block exactly while the handshake produced nothing, and not once the run has raised the readiness flag |
| `ControlPlaneTheorems.SocketMoves` | rust/tls-virt-wasmtime/src/p2.rs:73-83 | a socket only moves absent, connecting, then connected or failed by `finish_connect`, until dropped |
| `ControlPlaneTheorems.SocketHandsOutOnce` | rust/tls-virt-wasmtime/src/p2.rs:541-590 | over every run, between two drops of a socket `finish_connect` hands its streams out at most once, and never after it connected or failed |
| `ControlPlaneTheorems.DialStartsHandshake` | rust/tls-virt-wasmtime/src/p2.rs:478-539 | dialling a handle starts a handshake with the stored name towards the picked stored address, unchecked as yet |
| `ControlPlaneTheorems.StartReplies` | rust/tls-virt-wasmtime/src/p2.rs:478-502 | over every run: what is not a minted handle is delegated; a handle starts a handshake, unless the socket has a tunnel already or the network is not one; none is unreachable |
| `ControlPlaneTheorems.HalvesTakenOnce` | rust/tls-virt-wasmtime/src/main.rs:432-483 | between connects and drops each half of a 0.3 tunnel is taken at most once, and is gone exactly if it was taken |
| `ControlPlaneTheorems.Connect3Tunnels` | rust/tls-virt-wasmtime/src/main.rs:409-421 | a 0.3 connect that succeeds puts both halves at hand and leaves every other tunnel alone |
| `ControlPlaneTheorems.OptedInNameIsTunnelled` | rust/tls-virt-wasmtime/src/p2.rs:766-828 | over every run of the control plane: an opted-in resolution answered at most one address, and dialling it (barring a later mint under its suffix) starts a handshake with the stripped name towards the address picked from all those its wrapped stream gave before it ended |
| `ControlPlaneTheorems.OptedInNameIsAnswered` | rust/tls-virt-wasmtime/src/p2.rs:800-827 | over every run: the call in which the wrapped stream ends, addresses having been given, answers one handle, minted for the stripped name and all addresses given since the resolution began |
| `ControlObjects.VirtCtx.StartConnectCall` | rust/tls-virt-wasmtime/src/p2.rs:478-539 | delegated exactly if the address is no minted handle; a handle is invalid-state exactly on a socket with a tunnel, a bad network exactly on a free one without network, and otherwise started; only a start changes anything |
| `ControlObjects.VirtCtx.FinishConnectCall` | rust/tls-virt-wasmtime/src/p2.rs:541-590 | not ours, not in progress, would-block, the stored code or streams, by what the socket's entry and slot hold, a full resource table included; a refusal fails the socket, success connects it, and streams are handed out only if both were pushed |
| `ControlObjects.VirtCtx.ResolveAddressesCall` | rust/tls-virt-wasmtime/src/p2.rs:766-788 | the stripped name is what is asked for; a resolution that fails changes nothing; an opted-in one starts draining under the new index, any other leaves the side map alone |
| `ControlObjects.VirtCtx.DropSocketCall` | rust/tls-virt-wasmtime/src/main.rs:359-363 | both tunnel maps forget the index, whether or not the table gives it up |
| `ControlObjects.VirtCtx.DropResolveCall` | rust/tls-virt-wasmtime/src/p2.rs:839-842 | the drain state goes with the resource |
| `SendConsumer.VerdictOnce` | rust/tls-virt-wasmtime/src/main.rs:679-751 | over any polls and drop: at most one verdict, exactly one when all is over, `Ok` exactly when the TLS shutdown succeeded and then no write failed, and TLS got exactly the bytes marked read, in order |
| `SendConsumer.VerdictTraced` | rust/tls-virt-wasmtime/src/main.rs:679-751 | by the events alone: an `Ok` comes from a shutdown that succeeded, after the drop; an error from a write that failed or a shutdown that did |
| `SendConsumer.NothingAfterClose` | rust/tls-virt-wasmtime/src/main.rs:726-729 | once the half is gone nothing more is consumed |
| `SendConsumer.TlsSendConsumer.CloseWith` | rust/tls-virt-wasmtime/src/main.rs:686-707 | the first close decides: a clean one spawns the shutdown, an error resolves at once; later ones do nothing |
| `SendConsumer.TlsSendConsumer.PollConsume` | rust/tls-virt-wasmtime/src/main.rs:719-750 | dropped once the half is gone, completed on a probe or on bytes taken, cancelled or pending as asked when TLS is not ready, dropped with the verdict given on a failed write |
| `HeaderProtection.XorInPlace` | rust/quic/src/packet.rs:279-309 | the uniform loop masks the low four bits of a long header's first byte, five of a short one's, and exactly as many packet-number bytes as the unmasked length bits say; a region longer than four bytes is refused untouched |
| `HeaderProtection.MaskFirstByte` | rust/quic/src/packet.rs:290-303 | the first byte with its low four or five bits masked and the rest kept, and the length read from the unmasked one |
| `HeaderProtection.XorRegion` | rust/quic/src/packet.rs:304-307 | visiting every byte equals masking only the first pn-length bytes |
| `HeaderProtection.RoundTrip` | rust/quic/src/packet.rs:189-206 | unmasking the four-byte region restores every header and leaves the payload bytes behind it alone |
| `HeaderProtection.ProtectedIsRfc9001` | rust/quic/src/packet.rs:260-309 | bit by bit and byte by byte, in both directions and for an empty region too, what protection changes and what it leaves |
| `HeaderProtection.FirstRoundTrip` | rust/quic/src/packet.rs:290-303 | the form bit survives masking and masking twice restores the byte |
| `Welford.WelfordIsTwoPass` | timing-lab/src/stats.rs:20-43 | for every sequence the online accumulator is the two-pass count, mean and sum of squared deviations, and that sum is not negative |
| `Welford.PushOrderIrrelevant` | timing-lab/src/stats.rs:20-26 | samples pushed in any order leave the same accumulator |
| `Welford.Accumulator.PushSample` | timing-lab/src/stats.rs:21-26 | the object accumulates exactly what was pushed |
| `Welford.Accumulator.Variance` | timing-lab/src/stats.rs:36-42 | the sample variance by the two-pass deviations, undefined below two samples |
| `CroppedT.WelchT` | timing-lab/src/stats.rs:46-50 | the difference of the two-pass means over the sum of their squared standard errors, undefined exactly below two samples in a class or when neither class varies |
| `CroppedT.MaxCroppedT` | timing-lab/src/stats.rs:76-103 | the result is the first of the crops' statistics of largest magnitude; none only if no crop is usable |
| `CroppedT.CropT` | timing-lab/src/stats.rs:80-97 | one crop by its accumulators is the statistic of what the crop keeps, and none exactly with fewer than four samples to keep, fewer than two kept in a class, or no variation |
| `CroppedT.KeptIsOneCut` | timing-lab/src/stats.rs:81-93 | a crop keeps of both classes exactly what lies at or below one value, the least sample that leaves as many as are to be kept |
| `CroppedT.FullDataFirst` | timing-lab/src/stats.rs:72-81 | the first crop is the full data |
| `CroppedT.CropKeepsEnough` | timing-lab/src/stats.rs:81-93 | cutting both classes at the pooled cutoff keeps at least `keep` samples |
| `CroppedT.CropsNested` | timing-lab/src/stats.rs:80-93 | what a smaller percentile keeps of each class is what a larger one keeps of it, cut further at one value for both |

## Left out

- The receive stream of the 0.2 tunnel (`TlsInputStream`) and the 0.3 receive producer: cancelling their reads depends on the host's poll loop.
- The writer task's loop as one running method: its steps are the machine's task events, since it is its interleaving with guest calls that matters; only one I/O round of it is also a method.
- The `subscribe` and `shutdown` calls of a 0.2 socket as dispatchers: the readiness flag, the request to shut the send direction down and its effects are modelled, closing the receive direction is not.
- The address check and dial of the 0.3 `connect`: only its borrow and its insertion into the side map are modelled.
- A handshake task that dies: its slot stays empty, so `finish_connect` would block although a pollable on the dropped flag resolves (`FinishBlocksIff` covers it as a handshake that produced nothing).
- Packet sealing and opening, mask derivation from a sample, AEAD limits and multipath nonces: thin wrappers over ciphers and over rustls.
- CroppedT.WelchT: keeps the statistic as difference and variance instead of taking a square root, because magnitudes are only compared.
- Floating point: the statistics are over the reals, without rounding, NaN inputs or the total order on them.
- Configuration, profiles, key schedules, QUIC crates besides header protection, the guest virtualizer, socket options, UDP, listening, and all benches and drivers: delegation, fixed lists or I/O.
- Timing claims, and anything about cipher strength.
