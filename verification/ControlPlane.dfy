/**
 The provider's own state: three side maps keyed by table indices the resource table
 recycles, the handle table, and the handshake jobs behind 0.2 connects.  `mints`,
 `asked` (by generation) and `handedOut` record history.

 Every resource carries a generation number, never used again, so that "the resource
 now at this index" can be told from "a resource once at this index".
 */
module ControlPlane {
  import opened Basics
  import opened Handles
  import opened Resolver

  datatype Kind = Socket | ResolveStream | Other

  datatype Resource = Resource(kind: Kind, gen: nat)

  /** A side-map entry and the generation it was made for. */
  datatype Owned<T> = Owned(gen: nat, value: T)

  datatype Handshake = Ready | Refused(code: nat)

  datatype Phase = Checking | Dialing | Over | Died

  /** A spawned handshake: whom to greet, where to dial, whether the address check let
      it, the slot `finish_connect` empties, and the readiness flag raised after it. */
  datatype Job = Job(hostname: string, dest: SocketAddr, accepted: bool, phase: Phase,
                     slot: Option<Handshake>, done: bool)

  datatype Tunnel2 = Connecting(job: nat) | Connected(job: nat) | Failed

  /** A 0.3 tunnel; its halves are taken by `receive` and `send`. */
  datatype Tunnel3 = Tunnel3(read: bool, write: bool)

  /** What is on record of one opted-in resolution: the name asked for, what the wrapped
      stream gave so far, the answers given, and which mint was made for it. */
  datatype Asked = Asked(name: string, given: seq<Item>, answers: seq<Answer>, mint: Option<nat>)

  datatype Plane = Plane(
    live: map<nat, Resource>, nextGen: nat, borrowed: multiset<nat>,
    prefix: Octets8, mints: seq<Mint>,
    tunnels3: map<nat, Owned<Tunnel3>>, tunnels2: map<nat, Owned<Tunnel2>>,
    resolves: map<nat, Owned<Resolve>>, asked: map<nat, Asked>,
    jobs: seq<Job>, handedOut: seq<nat>)

  function Empty(prefix: Octets8): Plane {
    Plane(map[], 0, multiset{}, prefix, [], map[], map[], map[], map[], [], [])
  }

  datatype Event =
    | Create(rep: nat, kind: Kind)
    | DropSocket(rep: nat, deleted: bool)
    | DropResolve(rep: nat, deleted: bool)
    | DropOther(rep: nat)
    | ResolveAddresses(rep: nat, name: string)
    | ResolveNext(rep: nat, suffix: Octets8, items: seq<Item>)
    | StartConnect(rep: nat, dialed: SocketAddr, networkOk: bool)
    | JobCheck(job: nat, ok: bool)
    | JobEnd(job: nat, outcome: Handshake)
    | JobSignal(job: nat)
    | JobDie(job: nat)
    | FinishConnect(rep: nat, input: Option<nat>, output: Option<nat>)   // None: the table is full
    | Connect3Begin(rep: nat)
    | Connect3End(rep: nat, ok: bool)
    | Send3(rep: nat)
    | Receive3(rep: nat)

  predicate IsLive(s: Plane, rep: nat, kind: Kind) {
    rep in s.live && s.live[rep].kind == kind
  }

  /** A guest can only name resources it holds, and a call holds on to what it borrows. */
  predicate Enabled(s: Plane, e: Event) {
    match e
    case Create(rep, _) => rep !in s.live
    case DropSocket(rep, _) => IsLive(s, rep, Socket) && rep !in s.borrowed
    case DropResolve(rep, _) => IsLive(s, rep, ResolveStream)
    case DropOther(rep) => IsLive(s, rep, Other)
    case ResolveAddresses(rep, _) => rep !in s.live
    case ResolveNext(rep, _, _) => IsLive(s, rep, ResolveStream)
    case StartConnect(rep, _, _) => IsLive(s, rep, Socket)
    case JobCheck(j, _) => j < |s.jobs| && s.jobs[j].phase == Checking
    case JobEnd(j, _) => j < |s.jobs| && s.jobs[j].phase == Dialing
    case JobSignal(j) => j < |s.jobs| && s.jobs[j].phase == Over && !s.jobs[j].done
    case JobDie(j) => j < |s.jobs| && (s.jobs[j].phase == Checking || s.jobs[j].phase == Dialing)
    case FinishConnect(rep, i, o) =>
      && IsLive(s, rep, Socket) && (i.Some? ==> i.value !in s.live) && (o.Some? ==> o.value !in s.live)
      && (i.Some? ==> i != o)
    case Connect3Begin(rep) => IsLive(s, rep, Socket)
    case Connect3End(rep, _) => rep in s.borrowed
    case Send3(rep) => IsLive(s, rep, Socket)
    case Receive3(rep) => IsLive(s, rep, Socket)
  }

  const ACCESS_DENIED: nat := 1

  function AddResource(s: Plane, rep: nat, kind: Kind): Plane {
    s.(live := s.live[rep := Resource(kind, s.nextGen)], nextGen := s.nextGen + 1)
  }

  // ---------------------------------------------------------------- 0.2 connect

  datatype StartReply = Delegated | Started | InvalidState | BadNetwork | RemoteUnreachable

  /** What dialling asks for: the entry behind the address, if it is a handle. */
  function Dialled(s: Plane, dialed: SocketAddr): Option<Entry> {
    if dialed.ip.Ipv6? then Lookup(s.prefix, EntriesAfter(s.mints), dialed.ip.v6) else None
  }

  function StartReplyOf(s: Plane, rep: nat, dialed: SocketAddr, networkOk: bool): StartReply {
    var entry := Dialled(s, dialed);
    if entry.None? then Delegated
    else if rep in s.tunnels2 then InvalidState
    else if !networkOk then BadNetwork
    else if PickAddr(entry.value.addrs, dialed.port).None? then RemoteUnreachable
    else Started
  }

  function StartStep(s: Plane, rep: nat, dialed: SocketAddr, networkOk: bool): Plane
    requires IsLive(s, rep, Socket)
  {
    if StartReplyOf(s, rep, dialed, networkOk) == Started then
      var entry := Dialled(s, dialed).value;
      var dest := PickAddr(entry.addrs, dialed.port).value;
      s.(jobs := s.jobs + [Job(entry.hostname, dest, false, Checking, None, false)],
         tunnels2 := s.tunnels2[rep := Owned(s.live[rep].gen, Connecting(|s.jobs|))])
    else s
  }

  datatype FinishReply = NotOurs | NotInProgress | WouldBlock | Streams | Reported(code: nat) | TableFull

  /** What the outcome of the handshake calls for. */
  function FinishReplyOf(s: Plane, rep: nat): FinishReply {
    if rep !in s.tunnels2 then NotOurs
    else if !s.tunnels2[rep].value.Connecting? then NotInProgress
    else
      var j := s.tunnels2[rep].value.job;
      if j >= |s.jobs| || s.jobs[j].slot.None? then WouldBlock
      else if s.jobs[j].slot.value == Ready then Streams
      else Reported(s.jobs[j].slot.value.code)
  }

  /** What the guest is told: a full table turns finished streams into an error. */
  function FinishAnswer(s: Plane, rep: nat, input: Option<nat>, output: Option<nat>): FinishReply {
    var reply := FinishReplyOf(s, rep);
    if reply == Streams && (input.None? || output.None?) then TableFull else reply
  }

  function PushStreams(s: Plane, input: Option<nat>, output: Option<nat>, job: nat): Plane {
    if input.None? then s
    else
      var t := AddResource(s, input.value, Other);
      if output.None? then t
      else AddResource(t, output.value, Other).(handedOut := s.handedOut + [job])
  }

  /** The outcome is taken from its slot and the socket moves on. */
  function Settle(s: Plane, rep: nat): Plane
    requires FinishReplyOf(s, rep) == Streams || FinishReplyOf(s, rep).Reported?
  {
    var j := s.tunnels2[rep].value.job;
    s.(jobs := s.jobs[j := s.jobs[j].(slot := None)],
       tunnels2 := s.tunnels2[rep := Owned(s.tunnels2[rep].gen,
                                           if FinishReplyOf(s, rep) == Streams then Connected(j) else Failed)])
  }

  function FinishStep(s: Plane, rep: nat, input: Option<nat>, output: Option<nat>): Plane {
    match FinishReplyOf(s, rep)
    case Streams => PushStreams(Settle(s, rep), input, output, s.tunnels2[rep].value.job)
    case Reported(_) => Settle(s, rep)
    case _ => s
  }

  function JobStep(s: Plane, e: Event): Plane
    requires e.JobCheck? || e.JobEnd? || e.JobSignal? || e.JobDie?
    requires Enabled(s, e)
  {
    var job := s.jobs[e.job];
    s.(jobs := s.jobs[e.job :=
      match e
      case JobCheck(_, ok) =>
        if ok then job.(accepted := true, phase := Dialing)
        else job.(phase := Over, slot := Some(Refused(ACCESS_DENIED)))
      case JobEnd(_, outcome) => job.(phase := Over, slot := Some(outcome))
      case JobSignal(_) => job.(done := true)
      case JobDie(_) => job.(phase := Died)])
  }

  // ---------------------------------------------------------------- steps

  /** A resolution starts; with a stripped name at hand it is ours to drain. */
  function OpenResolve(s: Plane, rep: nat, name: string, host: Option<string>): Plane {
    var t := AddResource(s, rep, ResolveStream);
    if host.None? then t
    else t.(resolves := t.resolves[rep := Owned(s.nextGen, Draining(host.value, []))],
            asked := t.asked[s.nextGen := Asked(name, [], [], None)])
  }

  function Recorded(a: Asked, items: seq<Item>, o: Outcome, mints: nat): Asked
    requires |o.rest| <= |items|
  {
    Asked(a.name, a.given + Used(items, o), a.answers + [o.answer], if o.minted.Some? then Some(mints) else a.mint)
  }

  function ResolveStep(s: Plane, rep: nat, suffix: Octets8, items: seq<Item>): Plane {
    if rep !in s.resolves then s
    else
      var o := NextAddress(s.prefix, suffix, s.resolves[rep].value, items);
      var g := s.resolves[rep].gen;
      s.(resolves := s.resolves[rep := Owned(g, o.state)],
         asked := if g in s.asked then s.asked[g := Recorded(s.asked[g], items, o, |s.mints|)] else s.asked,
         mints := if o.minted.Some? then s.mints + [Mint(suffix, o.minted.value)] else s.mints)
  }

  /** The 0.3 calls: a connect holds its socket while it runs; each half is taken once. */
  function Step3(s: Plane, e: Event): Plane
    requires e.Connect3Begin? || e.Connect3End? || e.Send3? || e.Receive3?
  {
    match e
    case Connect3Begin(rep) => s.(borrowed := s.borrowed + multiset{rep})
    case Connect3End(rep, ok) =>
      var t := s.(borrowed := s.borrowed - multiset{rep});
      if ok && rep in s.live
      then t.(tunnels3 := s.tunnels3[rep := Owned(s.live[rep].gen, Tunnel3(true, true))]) else t
    case Send3(rep) =>
      if rep in s.tunnels3
      then s.(tunnels3 := s.tunnels3[rep := s.tunnels3[rep].(value := s.tunnels3[rep].value.(write := false))])
      else s
    case Receive3(rep) =>
      if rep in s.tunnels3
      then s.(tunnels3 := s.tunnels3[rep := s.tunnels3[rep].(value := s.tunnels3[rep].value.(read := false))])
      else s
  }

  function Step(s: Plane, e: Event): Plane
    requires Enabled(s, e)
  {
    match e
    case Create(rep, kind) => AddResource(s, rep, kind)
    case DropSocket(rep, deleted) =>
      s.(tunnels2 := s.tunnels2 - {rep}, tunnels3 := s.tunnels3 - {rep},
         live := if deleted then s.live - {rep} else s.live)
    case DropResolve(rep, deleted) =>
      s.(resolves := s.resolves - {rep}, live := if deleted then s.live - {rep} else s.live)
    case DropOther(rep) => s.(live := s.live - {rep})
    case ResolveAddresses(rep, name) => OpenResolve(s, rep, name, StripSuffix(name))
    case ResolveNext(rep, suffix, items) => ResolveStep(s, rep, suffix, items)
    case StartConnect(rep, dialed, networkOk) => StartStep(s, rep, dialed, networkOk)
    case JobCheck(_, _) => JobStep(s, e)
    case JobEnd(_, _) => JobStep(s, e)
    case JobSignal(_) => JobStep(s, e)
    case JobDie(_) => JobStep(s, e)
    case FinishConnect(rep, input, output) => FinishStep(s, rep, input, output)
    case Connect3Begin(_) => Step3(s, e)
    case Connect3End(_, _) => Step3(s, e)
    case Send3(_) => Step3(s, e)
    case Receive3(_) => Step3(s, e)
  }

  predicate ValidRun(s: Plane, es: seq<Event>)
    decreases |es|
  {
    es == [] || (Enabled(s, es[0]) && ValidRun(Step(s, es[0]), es[1..]))
  }

  function Final(s: Plane, es: seq<Event>): Plane
    requires ValidRun(s, es)
    decreases |es|
  {
    if es == [] then s else Final(Step(s, es[0]), es[1..])
  }
}
