/**
 The draining resolver: an opted-in resolution is pulled to its end through the
 wrapped stream and answered with one minted handle.
 */
module Resolver {
  import opened Basics
  import opened Handles

  /** What the wrapped stream gives next: an address, its end, or an error (would-block
      among them). */
  datatype Item = Address(addr: IpAddr) | EndOfAddresses | InnerError(code: nat)

  const WOULD_BLOCK: nat := 0

  datatype Resolve = Draining(hostname: string, addrs: seq<IpAddr>) | Yielded

  datatype Answer = Handle(addr: V6) | NoMore | NameUnresolvable | Error(code: nat)

  /** What one call leaves behind: the new state, its answer, the entry it minted if
      any, and what the wrapped stream has still to give. */
  datatype Outcome = Outcome(state: Resolve, answer: Answer, minted: Option<Entry>, rest: seq<Item>)

  /** One call.  A stream with nothing left to give would block. */
  function NextAddress(prefix: Octets8, suffix: Octets8, state: Resolve, items: seq<Item>): (o: Outcome)
    ensures |o.rest| <= |items|
    decreases |items|
  {
    if items == [] then Outcome(state, Error(WOULD_BLOCK), None, [])
    else
      match items[0]
      case InnerError(code) => Outcome(state, Error(code), None, items[1..])
      case Address(a) =>
        (match state
         case Yielded => Outcome(Yielded, NoMore, None, items[1..])
         case Draining(h, addrs) => NextAddress(prefix, suffix, Draining(h, addrs + [a]), items[1..]))
      case EndOfAddresses =>
        (match state
         case Yielded => Outcome(Yielded, NoMore, None, items[1..])
         case Draining(h, addrs) =>
           if addrs == [] then Outcome(Yielded, NameUnresolvable, None, items[1..])
           else Outcome(Yielded, Handle(HandleAddress(prefix, suffix)), Some(Entry(h, addrs)), items[1..]))
  }

  /** The addresses the wrapped stream gives before it first ends, errors skipped. */
  function Addresses(items: seq<Item>): seq<IpAddr> {
    if items == [] || items[0].EndOfAddresses? then []
    else if items[0].Address? then [items[0].addr] + Addresses(items[1..])
    else Addresses(items[1..])
  }

  /** A resolution being used: its state, the rest of the wrapped stream, and the
      answers and mints of the calls so far. */
  datatype Session = Session(state: Resolve, items: seq<Item>, answers: seq<Answer>, mints: seq<Mint>)

  function Call(prefix: Octets8, s: Session, suffix: Octets8): Session {
    var o := NextAddress(prefix, suffix, s.state, s.items);
    Session(o.state, o.rest, s.answers + [o.answer],
            if o.minted.Some? then s.mints + [Mint(suffix, o.minted.value)] else s.mints)
  }

  function Calls(prefix: Octets8, s: Session, suffixes: seq<Octets8>): Session {
    if suffixes == [] then s
    else Call(prefix, Calls(prefix, s, suffixes[..|suffixes| - 1]), suffixes[|suffixes| - 1])
  }

  function Fresh(hostname: string, items: seq<Item>): Session {
    Session(Draining(hostname, []), items, [], [])
  }

  /** The part of the wrapped stream a call asks for. */
  function Used(items: seq<Item>, o: Outcome): seq<Item>
    requires |o.rest| <= |items|
  {
    items[..|items| - |o.rest|]
  }

  lemma {:induction false} UsedThenRest(prefix: Octets8, suffix: Octets8, state: Resolve, items: seq<Item>)
    ensures var o := NextAddress(prefix, suffix, state, items); items == Used(items, o) + o.rest
    decreases |items|
  {
    if items != [] && items[0].Address? && state.Draining? {
      UsedThenRest(prefix, suffix, Draining(state.hostname, state.addrs + [items[0].addr]), items[1..]);
    }
  }

  /** What a draining call does with the items it asks for: one that meets the end of
      the stream answers for all addresses, any other one only an error. */
  lemma {:induction false} NextAddressUses(prefix: Octets8, suffix: Octets8, state: Resolve, items: seq<Item>)
    requires state.Draining?
    ensures var o := NextAddress(prefix, suffix, state, items);
            var used := Used(items, o);
            var all := state.addrs + Addresses(used);
            && (o.state.Draining? ==>
                  && EndOfAddresses !in used && o.state == Draining(state.hostname, all)
                  && o.answer.Error? && o.minted == None)
            && (o.state == Yielded ==>
                  && EndOfAddresses in used
                  && if all == [] then o.answer == NameUnresolvable && o.minted == None
                     else && o.answer == Handle(HandleAddress(prefix, suffix))
                          && o.minted == Some(Entry(state.hostname, all)))
    decreases |items|
  {
    if items != [] {
      var o := NextAddress(prefix, suffix, state, items);
      match items[0]
      case Address(a) =>
        NextAddressUses(prefix, suffix, Draining(state.hostname, state.addrs + [a]), items[1..]);
        assert Used(items, o) == [items[0]] + Used(items[1..], o);
        var more := Addresses(Used(items[1..], o));
        assert state.addrs + [a] + more == state.addrs + ([a] + more);
      case EndOfAddresses =>
        assert Used(items, o) == [items[0]];
        assert state.addrs + [] == state.addrs;
      case InnerError(_) =>
        assert Used(items, o) == [items[0]] && [items[0]][1..] == [];
        assert state.addrs + [] == state.addrs;
    } else {
      assert state.addrs + [] == state.addrs;
    }
  }

  /** The whole of one draining call by where the wrapped stream first stops giving
      addresses: every one before it is kept, an error is passed on with its code and
      leaves the rest for later, and the end is answered for all. */
  lemma {:induction false} CallAnswers(prefix: Octets8, suffix: Octets8, h: string, addrs: seq<IpAddr>,
                                       items: seq<Item>, k: nat)
    requires k <= |items| && (forall i :: 0 <= i < k ==> items[i].Address?)
    requires k < |items| ==> !items[k].Address?
    ensures var o := NextAddress(prefix, suffix, Draining(h, addrs), items);
            var all := addrs + seq(k, i requires 0 <= i < k => items[i].addr);
            if k == |items| then o == Outcome(Draining(h, all), Error(WOULD_BLOCK), None, [])
            else
              && o.rest == items[k + 1..]
              && (items[k].InnerError? ==> o.state == Draining(h, all) && o.answer == Error(items[k].code))
              && (items[k].EndOfAddresses? && all == [] ==> o.state == Yielded && o.answer == NameUnresolvable)
              && (items[k].EndOfAddresses? && all != [] ==>
                    o.state == Yielded && o.answer == Handle(prefix + suffix) && o.minted == Some(Entry(h, all)))
              && (o.minted.Some? ==> items[k].EndOfAddresses? && all != [])
    decreases k
  {
    var given := seq(k, i requires 0 <= i < k => items[i].addr);
    if k == 0 {
      assert addrs + given == addrs;
    } else {
      CallAnswers(prefix, suffix, h, addrs + [items[0].addr], items[1..], k - 1);
      var later := seq(k - 1, i requires 0 <= i < k - 1 => items[1..][i].addr);
      assert addrs + given == addrs + [items[0].addr] + later;
      if k < |items| {
        assert items[1..][k..] == items[k + 1..];
      }
    }
  }

  /** After the handle, or the refusal, a call only passes on errors and otherwise says
      that there is nothing more, whatever the wrapped stream gives. */
  lemma CallAfterEnd(prefix: Octets8, suffix: Octets8, items: seq<Item>)
    ensures var o := NextAddress(prefix, suffix, Yielded, items);
            && o.state == Yielded && o.minted == None
            && (items == [] ==> o.answer == Error(WOULD_BLOCK))
            && (items != [] ==> o.rest == items[1..])
            && (items != [] && items[0].InnerError? ==> o.answer == Error(items[0].code))
            && (items != [] && !items[0].InnerError? ==> o.answer == NoMore)
  {}

  /** Addresses count up to the first end. */
  lemma {:induction false} AddressesAppend(a: seq<Item>, b: seq<Item>)
    ensures Addresses(a + b) == if EndOfAddresses in a then Addresses(a) else Addresses(a) + Addresses(b)
  {
    if a == [] {
      assert a + b == b;
    } else {
      assert (a + b)[1..] == a[1..] + b;
      AddressesAppend(a[1..], b);
      assert a == [a[0]] + a[1..];
    }
  }

  lemma NextAddressYielded(prefix: Octets8, suffix: Octets8, items: seq<Item>)
    ensures var o := NextAddress(prefix, suffix, Yielded, items);
            o.state == Yielded && (o.answer == NoMore || o.answer.Error?) && o.minted == None
  {}

  /** While draining nothing was answered but errors; afterwards exactly the one handle,
      or none at all when there was no address. */
  predicate SessionInv(prefix: Octets8, hostname: string, all: seq<IpAddr>, s: Session) {
    && (s.state.Draining? ==>
          && s.state.hostname == hostname && s.state.addrs + Addresses(s.items) == all
          && s.mints == [] && forall i :: 0 <= i < |s.answers| ==> s.answers[i].Error?)
    && (s.state == Yielded && all == [] ==>
          s.mints == [] && forall i :: 0 <= i < |s.answers| ==> !s.answers[i].Handle?)
    && (s.state == Yielded && all != [] ==>
          && |s.mints| == 1 && s.mints[0].entry == Entry(hostname, all)
          && var handle := HandleAddress(prefix, s.mints[0].suffix);
             exists k :: 0 <= k < |s.answers| && AnsweredAt(s.answers, handle, k))
  }

  /** The one handle answered is the `k`th answer. */
  predicate AnsweredAt(answers: seq<Answer>, handle: V6, k: nat) {
    && k < |answers| && answers[k] == Handle(handle)
    && forall i :: 0 <= i < |answers| && i != k ==> !answers[i].Handle?
  }

  lemma SessionStep(prefix: Octets8, hostname: string, all: seq<IpAddr>, s: Session, suffix: Octets8)
    requires SessionInv(prefix, hostname, all, s)
    ensures SessionInv(prefix, hostname, all, Call(prefix, s, suffix))
  {
    hide NextAddress, Addresses, Used;
    var o := NextAddress(prefix, suffix, s.state, s.items);
    var t := Call(prefix, s, suffix);
    if s.state.Draining? {
      NextAddressUses(prefix, suffix, s.state, s.items);
      UsedThenRest(prefix, suffix, s.state, s.items);
      AddressesAppend(Used(s.items, o), o.rest);
      if t.state == Yielded && all != [] {
        assert AnsweredAt(t.answers, HandleAddress(prefix, suffix), |s.answers|);
      }
    } else {
      NextAddressYielded(prefix, suffix, s.items);
      if all != [] {
        var handle := HandleAddress(prefix, s.mints[0].suffix);
        var k :| 0 <= k < |s.answers| && AnsweredAt(s.answers, handle, k);
        assert AnsweredAt(t.answers, handle, k);
      }
    }
  }

  /** For every pattern of addresses, errors and ends and any number of calls: at most
      one answer is an address, it is a handle and not a real address, and what was
      minted is the name with every address given before the first end, in order. */
  lemma {:induction false} OneHandle(prefix: Octets8, hostname: string, items: seq<Item>, suffixes: seq<Octets8>)
    ensures SessionInv(prefix, hostname, Addresses(items), Calls(prefix, Fresh(hostname, items), suffixes))
  {
    if suffixes != [] {
      OneHandle(prefix, hostname, items, suffixes[..|suffixes| - 1]);
      SessionStep(prefix, hostname, Addresses(items),
                  Calls(prefix, Fresh(hostname, items), suffixes[..|suffixes| - 1]), suffixes[|suffixes| - 1]);
    }
  }

  /** Two handle answers are the same answer. */
  lemma AtMostOneAddress(prefix: Octets8, hostname: string, items: seq<Item>, suffixes: seq<Octets8>, i: nat, j: nat)
    requires var s := Calls(prefix, Fresh(hostname, items), suffixes);
             i < |s.answers| && j < |s.answers| && s.answers[i].Handle? && s.answers[j].Handle?
    ensures i == j
  {
    OneHandle(prefix, hostname, items, suffixes);
  }

  /** Mints under other handles do not matter. */
  lemma {:induction false} NewestSkips(prefix: Octets8, mints: seq<Mint>, later: seq<Mint>, addr: V6)
    requires forall m :: m in later ==> HandleAddress(prefix, m.suffix) != addr
    ensures NewestFor(prefix, mints + later, addr) == NewestFor(prefix, mints, addr)
  {
    if later == [] {
      assert mints + later == mints;
    } else {
      var k := |later| - 1;
      assert (mints + later)[..|mints + later| - 1] == mints + later[..k];
      NewestSkips(prefix, mints, later[..k], addr);
    }
  }

  // ---------------------------------------------------------------- the call as a loop

  /** The wrapped resources, keyed by table index. */
  class Resolutions {
    var states: map<nat, Resolve>

    constructor ()
      ensures states == map[]
    {
      states := map[];
    }

    /** The loop of `resolve_next_address` on an index that is ours.  The entry is
        there on every pass, so the pass-through return inside the loop is never taken. */
    method ResolveNext(rep: nat, names: HandleTable, suffix: Octets8, items: seq<Item>)
      returns (answer: Answer, used: nat)
      requires rep in states && names.Valid()
      modifies this, names
      ensures names.Valid() && used <= |items|
      ensures var o := NextAddress(names.prefix, suffix, old(states[rep]), items);
              && answer == o.answer && states == old(states)[rep := o.state] && items[used..] == o.rest
              && names.mints == old(names.mints) +
                   if o.minted.Some? then [Mint(suffix, o.minted.value)] else []
    {
      used := 0;
      while used < |items|
        invariant used <= |items| && rep in states && names.Valid()
        invariant names.mints == old(names.mints) && states == old(states)[rep := states[rep]]
        invariant NextAddress(names.prefix, suffix, states[rep], items[used..]) ==
                  NextAddress(names.prefix, suffix, old(states[rep]), items)
      {
        var next := items[used];
        assert items[used..][1..] == items[used + 1..];
        used := used + 1;
        match next
        case InnerError(code) => return Error(code), used;
        case Address(a) =>
          match states[rep] {
            case Yielded => return NoMore, used;
            case Draining(h, addrs) => states := states[rep := Draining(h, addrs + [a])];
          }
        case EndOfAddresses =>
          match states[rep] {
            case Yielded => return NoMore, used;
            case Draining(h, addrs) =>
              states := states[rep := Yielded];
              if addrs == [] {
                return NameUnresolvable, used;
              }
              var handle := names.MintHandle(Entry(h, addrs), suffix);
              return Handle(handle), used;
          }
      }
      assert items[used..] == [];
      answer := Error(WOULD_BLOCK);
    }
  }
}
