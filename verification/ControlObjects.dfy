/** The provider's context object: the host calls that change the side maps, in place. */
module ControlObjects {
  import opened Basics
  import opened Handles
  import opened Resolver
  import opened ControlPlane

  class VirtCtx {
    var live: map<nat, Resource>
    var nextGen: nat
    var borrowed: multiset<nat>
    const prefix: Octets8
    var entries: map<nat, Entry>
    ghost var mints: seq<Mint>
    var tunnels3: map<nat, Owned<Tunnel3>>
    var tunnels2: map<nat, Owned<Tunnel2>>
    var resolves: map<nat, Owned<Resolve>>
    ghost var asked: map<nat, Asked>
    var jobs: seq<Job>
    ghost var handedOut: seq<nat>

    ghost function View(): Plane
      reads this
    {
      Plane(live, nextGen, borrowed, prefix, mints, tunnels3, tunnels2, resolves, asked, jobs, handedOut)
    }

    ghost predicate Valid()
      reads this
    {
      entries == EntriesAfter(mints)
    }

    constructor (prefix: Octets8)
      ensures Valid() && View() == Empty(prefix)
    {
      this.prefix := prefix;
      live, nextGen, borrowed := map[], 0, multiset{};
      entries, mints := map[], [];
      tunnels3, tunnels2, resolves, asked := map[], map[], map[], map[];
      jobs, handedOut := [], [];
    }

    method StartConnectCall(rep: nat, dialed: SocketAddr, networkOk: bool) returns (reply: StartReply)
      requires Valid() && IsLive(View(), rep, Socket)
      modifies this`jobs, this`tunnels2
      ensures Valid() && View() == StartStep(old(View()), rep, dialed, networkOk)
      ensures reply == StartReplyOf(old(View()), rep, dialed, networkOk)
      ensures reply == Delegated <==> !(dialed.ip.Ipv6? && NewestFor(prefix, mints, dialed.ip.v6).Some?)
      ensures reply == InvalidState <==> reply != Delegated && rep in old(tunnels2)
      ensures reply == BadNetwork <==> reply != Delegated && rep !in old(tunnels2) && !networkOk
      ensures reply == Started || reply == RemoteUnreachable ==>
                var entry := NewestFor(prefix, mints, dialed.ip.v6).value; (reply == Started <==> entry.addrs != [])
      ensures reply == Started ==>
                && |jobs| == |old(jobs)| + 1 && tunnels2 == old(tunnels2)[rep := tunnels2[rep]]
                && tunnels2[rep].value == Connecting(|old(jobs)|)
      ensures reply != Started ==> View() == old(View())
    {
      if dialed.ip.Ipv6? {
        LookupIsNewest(prefix, mints, dialed.ip.v6);
      }
      var entry := None;
      if dialed.ip.Ipv6? {
        entry := Lookup(prefix, entries, dialed.ip.v6);
      }
      if entry.None? {
        return Delegated;
      }
      if rep in tunnels2 {
        return InvalidState;
      }
      if !networkOk {
        return BadNetwork;
      }
      var addr := PickAddr(entry.value.addrs, dialed.port);
      if addr.None? {
        return RemoteUnreachable;
      }
      tunnels2 := tunnels2[rep := Owned(live[rep].gen, Connecting(|jobs|))];
      jobs := jobs + [Job(entry.value.hostname, addr.value, false, Checking, None, false)];
      reply := Started;
    }

    /** The resource table takes a stream under an unused index. */
    method PushChild(rep: nat)
      modifies this`live, this`nextGen
      ensures View() == AddResource(old(View()), rep, Other)
    {
      live := live[rep := Resource(Other, nextGen)];
      nextGen := nextGen + 1;
    }

    method PushBoth(input: Option<nat>, output: Option<nat>, job: nat) returns (full: bool)
      requires Valid()
      modifies this`live, this`nextGen, this`handedOut
      ensures Valid() && View() == PushStreams(old(View()), input, output, job)
      ensures full <==> input.None? || output.None?
      ensures full ==> handedOut == old(handedOut)
    {
      if input.None? {
        return true;
      }
      PushChild(input.value);
      if output.None? {
        return true;
      }
      PushChild(output.value);
      handedOut := handedOut + [job];
      full := false;
    }

    method FinishConnectCall(rep: nat, input: Option<nat>, output: Option<nat>) returns (reply: FinishReply)
      requires Valid() && Enabled(View(), FinishConnect(rep, input, output))
      modifies this
      ensures Valid() && View() == FinishStep(old(View()), rep, input, output)
      ensures reply == FinishAnswer(old(View()), rep, input, output)
      ensures reply == NotOurs <==> rep !in old(tunnels2)
      ensures reply == NotInProgress <==> rep in old(tunnels2) && !old(tunnels2)[rep].value.Connecting?
      ensures reply.Reported? ==> tunnels2[rep].value == Failed
      ensures reply == Streams || reply == TableFull ==> tunnels2[rep].value == Connected(old(tunnels2)[rep].value.job)
      ensures reply != NotOurs && reply != NotInProgress && old(tunnels2)[rep].value.job < |old(jobs)| ==>
                match old(jobs)[old(tunnels2)[rep].value.job].slot
                case None => reply == WouldBlock
                case Some(Refused(code)) => reply == Reported(code)
                case Some(Ready) => reply == if input.Some? && output.Some? then Streams else TableFull
      ensures reply.NotOurs? || reply.NotInProgress? || reply.WouldBlock? ==> View() == old(View())
      ensures reply != Streams ==> handedOut == old(handedOut)
    {
      if rep !in tunnels2 {
        return NotOurs;
      }
      if !tunnels2[rep].value.Connecting? {
        return NotInProgress;
      }
      var j := tunnels2[rep].value.job;
      if j >= |jobs| || jobs[j].slot.None? {
        return WouldBlock;
      }
      var outcome := jobs[j].slot.value;
      jobs := jobs[j := jobs[j].(slot := None)];
      if outcome.Refused? {
        tunnels2 := tunnels2[rep := Owned(tunnels2[rep].gen, Failed)];
        return Reported(outcome.code);
      }
      tunnels2 := tunnels2[rep := Owned(tunnels2[rep].gen, Connected(j))];
      assert View() == Settle(old(View()), rep);
      var full := PushBoth(input, output, j);
      reply := if full then TableFull else Streams;
    }

    /** `inner` is the index the delegated resolution got, or nothing if it failed; it is
        asked for the stripped name of an opted-in one. */
    method ResolveAddressesCall(inner: Option<nat>, name: string) returns (asks: string, r: Option<nat>)
      requires Valid() && (inner.Some? ==> inner.value !in live)
      modifies this
      ensures Valid() && r == inner
      ensures name == asks + SUFFIX || (asks == name && StripSuffix(name).None?)
      ensures r.Some? ==> r.value in live && live[r.value].kind == ResolveStream
      ensures r.Some? && asks != name ==> r.value in resolves && resolves[r.value].value == Draining(asks, [])
      ensures r.None? || asks == name ==> resolves == old(resolves)
      ensures View() == if r.None? then old(View()) else Step(old(View()), ResolveAddresses(r.value, name))
    {
      hide OpenResolve;
      var host := StripSuffix(name);
      asks := if host.Some? then host.value else name;
      r := inner;
      if inner.None? {
        return;
      }
      Open(inner.value, name, host);
    }

    method Open(rep: nat, name: string, host: Option<string>)
      modifies this`live, this`nextGen, this`resolves, this`asked
      ensures View() == OpenResolve(old(View()), rep, name, host)
      ensures rep in live && live[rep].kind == ResolveStream
      ensures host.Some? ==> rep in resolves && resolves[rep].value == Draining(host.value, [])
      ensures host.None? ==> resolves == old(resolves)
    {
      live := live[rep := Resource(ResolveStream, nextGen)];
      if host.Some? {
        resolves := resolves[rep := Owned(nextGen, Draining(host.value, []))];
        asked := asked[nextGen := Asked(name, [], [], None)];
      }
      nextGen := nextGen + 1;
    }

    /** Both side maps forget the index before the resource itself goes. */
    method DropSocketCall(rep: nat, deleted: bool)
      requires Valid() && Enabled(View(), DropSocket(rep, deleted))
      modifies this`live, this`tunnels2, this`tunnels3
      ensures Valid() && View() == Step(old(View()), DropSocket(rep, deleted))
      ensures rep !in tunnels2 && rep !in tunnels3
    {
      tunnels2 := tunnels2 - {rep};
      tunnels3 := tunnels3 - {rep};
      if deleted {
        live := live - {rep};
      }
    }

    method DropResolveCall(rep: nat, deleted: bool)
      requires Valid() && Enabled(View(), DropResolve(rep, deleted))
      modifies this`live, this`resolves
      ensures Valid() && View() == Step(old(View()), DropResolve(rep, deleted))
      ensures rep !in resolves
    {
      resolves := resolves - {rep};
      if deleted {
        live := live - {rep};
      }
    }
  }
}
