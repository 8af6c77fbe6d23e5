/**
 The 0.3 send consumer: polled with windows of the guest's stream, it feeds the TLS
 write half; dropped, it drives the TLS shutdown; either way it resolves one verdict.
 */
module SendConsumer {
  import opened Basics

  datatype PollWrite = Wrote(n: nat) | WriteFailed | WritePending

  datatype PollResult = Completed | Dropped | Cancelled | Pending

  /** `source` is all the guest has written and `read` how much of it was marked read;
      `taken` is what the TLS half accepted.  `write` and `result` are the two option
      fields; `closing` a spawned shutdown still running. */
  datatype Consumer = Consumer(
    write: bool, result: bool, closing: bool, dropped: bool,
    source: seq<Byte>, read: nat, taken: seq<Byte>,
    failed: bool, shutDown: bool, oks: nat, errs: nat)

  const FRESH := Consumer(true, true, false, false, [], 0, [], false, false, 0, 0)

  datatype Event =
    | GuestWrites(bytes: seq<Byte>)
    | Poll(window: nat, outcome: PollWrite, finish: bool)
    | DropConsumer
    | ShutdownEnds(ok: bool)

  predicate Enabled(s: Consumer, e: Event) {
    match e
    case GuestWrites(_) => !s.dropped
    case Poll(window, outcome, _) =>
      !s.dropped && s.read + window <= |s.source| && (outcome.Wrote? ==> outcome.n <= window)
    case DropConsumer => !s.dropped
    case ShutdownEnds(_) => s.closing
  }

  function Verdict(s: Consumer, ok: bool): Consumer {
    if ok then s.(oks := s.oks + 1) else s.(errs := s.errs + 1)
  }

  /** The first close decides: a clean one with the half at hand spawns the shutdown,
      any other drops the half and resolves at once. */
  function Close(s: Consumer, ok: bool): Consumer {
    if !s.result then s
    else if ok && s.write then s.(result := false, write := false, closing := true)
    else Verdict(s.(result := false, write := false), ok)
  }

  function PollStep(s: Consumer, window: nat, outcome: PollWrite, finish: bool): (Consumer, PollResult)
    requires Enabled(s, Poll(window, outcome, finish))
  {
    if !s.write then (s, Dropped)
    else if window == 0 then (s, Completed)
    else
      match outcome
      case Wrote(n) =>
        (s.(read := s.read + n, taken := s.taken + s.source[s.read..s.read + n]), Completed)
      case WriteFailed => (Close(s.(failed := true), false), Dropped)
      case WritePending => (s, if finish then Cancelled else Pending)
  }

  function Step(s: Consumer, e: Event): Consumer
    requires Enabled(s, e)
  {
    match e
    case GuestWrites(bytes) => s.(source := s.source + bytes)
    case Poll(window, outcome, finish) => PollStep(s, window, outcome, finish).0
    case DropConsumer => Close(s.(dropped := true), true)
    case ShutdownEnds(ok) => Verdict(s.(closing := false, shutDown := ok), ok)
  }

  predicate ValidRun(s: Consumer, es: seq<Event>)
    decreases |es|
  {
    es == [] || (Enabled(s, es[0]) && ValidRun(Step(s, es[0]), es[1..]))
  }

  function Final(s: Consumer, es: seq<Event>): Consumer
    requires ValidRun(s, es)
    decreases |es|
  {
    if es == [] then s else Final(Step(s, es[0]), es[1..])
  }

  /** The half and the verdict sender live and go together, so a clean close never
      finds the half missing; verdicts and what they say. */
  predicate Inv(s: Consumer) {
    && s.write == s.result
    && (s.result ==> !s.failed && !s.dropped)
    && (s.closing ==> !s.result && s.dropped && !s.failed)
    && s.oks + s.errs == (if s.result || s.closing then 0 else 1)
    && (s.shutDown ==> s.dropped && !s.closing)
    && (s.oks > 0 <==> s.shutDown) && (s.oks > 0 ==> !s.failed)
    && (s.failed ==> s.errs > 0)
    && s.read <= |s.source| && s.taken == s.source[..s.read]
  }

  lemma InvStep(s: Consumer, e: Event)
    requires Inv(s) && Enabled(s, e)
    ensures Inv(Step(s, e))
  {
    match e
    case GuestWrites(bytes) => assert (s.source + bytes)[..s.read] == s.source[..s.read];
    case Poll(window, outcome, _) =>
      if outcome.Wrote? {
        assert s.source[..s.read] + s.source[s.read..s.read + outcome.n] == s.source[..s.read + outcome.n];
      }
    case _ =>
  }

  lemma {:induction false} InvRun(s: Consumer, es: seq<Event>)
    requires Inv(s) && ValidRun(s, es)
    ensures Inv(Final(s, es))
    decreases |es|
  {
    if es != [] {
      InvStep(s, es[0]);
      InvRun(Step(s, es[0]), es[1..]);
    }
  }

  /** For any polls: at most one verdict; exactly one once the consumer is dropped and
      the shutdown it may have spawned is over; `Ok` only if no write failed and the TLS
      shutdown succeeded, which comes after the last byte; and the TLS half got exactly
      the bytes marked read, in order. */
  lemma VerdictOnce(es: seq<Event>)
    requires ValidRun(FRESH, es)
    ensures Settled(Final(FRESH, es))
  {
    FreshInv();
    InvRun(FRESH, es);
    InvSettled(Final(FRESH, es));
  }

  predicate Settled(t: Consumer) {
    && t.oks + t.errs <= 1
    && (t.dropped && !t.closing ==> t.oks + t.errs == 1)
    && (t.oks == 1 <==> t.shutDown)
    && (t.oks == 1 ==> !t.failed && t.dropped)
    && t.read <= |t.source| && t.taken == t.source[..t.read]
  }

  lemma InvSettled(t: Consumer)
    requires Inv(t)
    ensures Settled(t)
  {}

  lemma FreshInv()
    ensures Inv(FRESH)
  {
    assert FRESH.source[..FRESH.read] == [];
  }

  /** The event is a write that failed. */
  predicate WriteFails(e: Event) {
    e.Poll? && e.outcome.WriteFailed? && e.window > 0
  }

  /** What the verdict, once given or due, goes back to: a failed write, or the end of
      the shutdown that the drop started. */
  predicate Traced(s: Consumer, t: Consumer, es: seq<Event>) {
    && (t.oks > 0 ==> s.oks > 0 || ShutdownEnds(true) in es)
    && (t.failed ==> s.failed || exists i :: 0 <= i < |es| && WriteFails(es[i]))
    && (t.errs > 0 && !t.failed ==> s.errs > 0 || ShutdownEnds(false) in es)
    && (t.dropped ==> s.dropped || DropConsumer in es)
    && (s.failed ==> t.failed)
  }

  lemma TracedStep(s: Consumer, e: Event)
    requires Inv(s) && Enabled(s, e)
    ensures var t := Step(s, e);
            && (t.oks > s.oks <==> e == ShutdownEnds(true))
            && (t.errs > s.errs <==> e == ShutdownEnds(false) || (WriteFails(e) && s.result))
            && (t.failed <==> s.failed || (WriteFails(e) && s.result))
            && (t.dropped <==> s.dropped || e == DropConsumer)
            && (t.closing <==> (s.closing && !e.ShutdownEnds?) || (e == DropConsumer && s.result))
            && t.oks >= s.oks && t.errs >= s.errs
  {}

  lemma {:induction false} TracedRun(s: Consumer, es: seq<Event>)
    requires Inv(s) && ValidRun(s, es)
    ensures Traced(s, Final(s, es), es)
    decreases |es|
  {
    if es != [] {
      hide Step, Enabled, Inv, WriteFails;
      TracedStep(s, es[0]);
      InvStep(s, es[0]);
      TracedRun(Step(s, es[0]), es[1..]);
      assert forall i :: 0 <= i < |es| - 1 ==> es[i + 1] == es[1..][i];
    }
  }

  /** By the events alone: an `Ok` comes from a shutdown that succeeded, after the drop;
      an error from a write that failed or a shutdown that did. */
  lemma VerdictTraced(es: seq<Event>)
    requires ValidRun(FRESH, es)
    ensures var t := Final(FRESH, es);
            && (t.oks == 1 ==> ShutdownEnds(true) in es && DropConsumer in es && t.errs == 0)
            && (t.errs == 1 ==> (exists i :: 0 <= i < |es| && WriteFails(es[i])) || ShutdownEnds(false) in es)
  {
    hide Inv, WriteFails;
    FreshInv();
    InvRun(FRESH, es);
    InvSettled(Final(FRESH, es));
    TracedRun(FRESH, es);
  }

  /** Once the half is gone, by an error or by the drop, nothing more is consumed. */
  lemma {:induction false} NothingAfterClose(s: Consumer, es: seq<Event>)
    requires !s.write && !s.result && ValidRun(s, es)
    ensures Final(s, es).read == s.read && Final(s, es).taken == s.taken
    decreases |es|
  {
    if es != [] {
      NothingAfterClose(Step(s, es[0]), es[1..]);
    }
  }

  // ---------------------------------------------------------------- the object

  class TlsSendConsumer {
    var write: bool
    var result: bool
    ghost var rest: Consumer

    ghost function View(): Consumer
      reads this
    {
      rest.(write := write, result := result)
    }

    constructor ()
      ensures View() == FRESH
    {
      write, result := true, true;
      rest := FRESH;
    }

    method CloseWith(ok: bool)
      modifies this
      ensures View() == Close(old(View()), ok)
      ensures !result && (!old(result) ==> View() == old(View()))
      ensures old(result) ==> !write && (View().closing || View().oks + View().errs > old(View().oks + View().errs))
      ensures old(result) && ok && old(write) ==> View().closing && View().errs == old(View().errs)
      ensures old(result) && !ok ==> View().errs == old(View().errs) + 1 && View().closing == old(View().closing)
      ensures View().oks > old(View().oks) ==> ok && !old(write)
    {
      if !result {
        return;
      }
      result := false;
      if ok && write {
        rest := rest.(closing := true);
      } else {
        rest := Verdict(rest, ok);
      }
      write := false;
    }

    method PollConsume(window: nat, outcome: PollWrite, finish: bool) returns (r: PollResult)
      requires Enabled(View(), Poll(window, outcome, finish))
      modifies this
      ensures (View(), r) == PollStep(old(View()), window, outcome, finish)
      ensures View().source == old(View().source) && old(View().read) <= View().read <= |View().source|
      ensures View().taken == old(View().taken) + View().source[old(View().read)..View().read]
      ensures !old(write) ==> r == Dropped && View() == old(View())
      ensures old(write) && window == 0 ==> r == Completed && View() == old(View())
      ensures old(write) && window > 0 && outcome.Wrote? ==>
                r == Completed && View().read == old(View().read) + outcome.n
      ensures old(write) && window > 0 && outcome.WritePending? ==>
                r == (if finish then Cancelled else Pending) && View() == old(View())
      ensures View().read > old(View().read) ==> r == Completed
      ensures old(write) && window > 0 && outcome.WriteFailed? ==> r == Dropped && !result
    {
      if !write {
        return Dropped;
      }
      if window == 0 {
        return Completed;
      }
      match outcome
      case Wrote(n) =>
        rest := rest.(read := rest.read + n, taken := rest.taken + rest.source[rest.read..rest.read + n]);
        r := Completed;
      case WriteFailed =>
        rest := rest.(failed := true);
        CloseWith(false);
        r := Dropped;
      case WritePending =>
        r := if finish then Cancelled else Pending;
    }
  }
}
