/** What the control plane keeps over all runs, indices reused at will. */
module ControlPlaneTheorems {
  import opened Basics
  import opened Handles
  import opened Resolver
  import opened ControlPlane

  // ---------------------------------------------------------------- side maps

  /** Every key names a live resource of the right kind, and was made for that very one. */
  predicate Names<T>(side: map<nat, Owned<T>>, live: map<nat, Resource>, kind: Kind) {
    forall k :: k in side ==> k in live && live[k] == Resource(kind, side[k].gen)
  }

  predicate SideMaps(s: Plane) {
    && Names(s.tunnels2, s.live, Socket)
    && Names(s.tunnels3, s.live, Socket)
    && Names(s.resolves, s.live, ResolveStream)
    && (forall k :: k in s.borrowed ==> IsLive(s, k, Socket))
    && (forall k :: k in s.live ==> s.live[k].gen < s.nextGen)
  }

  predicate JobEvent(e: Event) {
    e.JobCheck? || e.JobEnd? || e.JobSignal? || e.JobDie?
  }

  lemma NamesGrow<T>(side: map<nat, Owned<T>>, live: map<nat, Resource>, kind: Kind, rep: nat, r: Resource)
    requires Names(side, live, kind) && rep !in live
    ensures Names(side, live[rep := r], kind)
  {}

  lemma NamesDrop<T>(side: map<nat, Owned<T>>, live: map<nat, Resource>, kind: Kind, rep: nat)
    requires Names(side, live, kind)
    ensures Names(side - {rep}, live - {rep}, kind) && Names(side - {rep}, live, kind)
    ensures rep in live && live[rep].kind != kind ==> Names(side, live - {rep}, kind)
  {}

  lemma NamesPut<T>(side: map<nat, Owned<T>>, live: map<nat, Resource>, kind: Kind, rep: nat, v: Owned<T>)
    requires Names(side, live, kind) && rep in live && live[rep] == Resource(kind, v.gen)
    ensures Names(side[rep := v], live, kind)
  {}

  /** A new resource appears at an unused index. */
  lemma SideMapsAdd(s: Plane, rep: nat, kind: Kind)
    requires SideMaps(s) && rep !in s.live
    ensures SideMaps(AddResource(s, rep, kind))
  {
    var r := Resource(kind, s.nextGen);
    NamesGrow(s.tunnels2, s.live, Socket, rep, r);
    NamesGrow(s.tunnels3, s.live, Socket, rep, r);
    NamesGrow(s.resolves, s.live, ResolveStream, rep, r);
  }

  lemma SideMapsDrop(s: Plane, e: Event)
    requires SideMaps(s) && Enabled(s, e) && (e.DropSocket? || e.DropResolve? || e.DropOther?)
    ensures SideMaps(Step(s, e))
  {
    NamesDrop(s.tunnels2, s.live, Socket, e.rep);
    NamesDrop(s.tunnels3, s.live, Socket, e.rep);
    NamesDrop(s.resolves, s.live, ResolveStream, e.rep);
  }

  lemma JobFrame(s: Plane, e: Event)
    requires Enabled(s, e) && JobEvent(e)
    ensures Step(s, e) == s.(jobs := Step(s, e).jobs) && |Step(s, e).jobs| == |s.jobs|
  {}

  lemma SideMapsResolve(s: Plane, e: Event)
    requires SideMaps(s) && Enabled(s, e) && (e.ResolveAddresses? || e.ResolveNext?)
    ensures SideMaps(Step(s, e))
  {
    if e.ResolveAddresses? {
      SideMapsAdd(s, e.rep, ResolveStream);
      var t := AddResource(s, e.rep, ResolveStream);
      var host := StripSuffix(e.name);
      if host.Some? {
        NamesPut(t.resolves, t.live, ResolveStream, e.rep, Owned(s.nextGen, Draining(host.value, [])));
      }
    } else if e.rep in s.resolves {
      var o := NextAddress(s.prefix, e.suffix, s.resolves[e.rep].value, e.items);
      NamesPut(s.resolves, s.live, ResolveStream, e.rep, Owned(s.resolves[e.rep].gen, o.state));
    }
  }

  lemma SideMapsStart(s: Plane, e: Event)
    requires SideMaps(s) && Enabled(s, e) && e.StartConnect?
    ensures SideMaps(Step(s, e))
  {
    NamesPut(s.tunnels2, s.live, Socket, e.rep, Owned(s.live[e.rep].gen, Connecting(|s.jobs|)));
  }

  /** Pushing streams adds resources and, when both are in, one hand-out. */
  lemma PushStreamsFrame(s: Plane, input: Option<nat>, output: Option<nat>, job: nat)
    ensures var t := PushStreams(s, input, output, job);
            && t == s.(live := t.live, nextGen := t.nextGen, handedOut := t.handedOut)
            && s.nextGen <= t.nextGen
            && t.handedOut == if input.Some? && output.Some? then s.handedOut + [job] else s.handedOut
  {}

  lemma SideMapsSettle(s: Plane, rep: nat)
    requires SideMaps(s) && (FinishReplyOf(s, rep) == Streams || FinishReplyOf(s, rep).Reported?)
    ensures SideMaps(Settle(s, rep)) && Settle(s, rep).live == s.live
  {
    NamesPut(s.tunnels2, s.live, Socket, rep, Settle(s, rep).tunnels2[rep]);
  }

  lemma SideMapsPush(s: Plane, input: Option<nat>, output: Option<nat>, job: nat)
    requires SideMaps(s) && (input.Some? ==> input.value !in s.live && input != output)
    requires output.Some? ==> output.value !in s.live
    ensures SideMaps(PushStreams(s, input, output, job))
  {
    if input.Some? {
      SideMapsAdd(s, input.value, Other);
      if output.Some? {
        SideMapsAdd(AddResource(s, input.value, Other), output.value, Other);
      }
    }
  }

  lemma FinishFrame(s: Plane, e: Event)
    requires Enabled(s, e) && e.FinishConnect?
    ensures var t := FinishStep(s, e.rep, e.input, e.output);
            && t == s.(jobs := t.jobs, tunnels2 := t.tunnels2, live := t.live, nextGen := t.nextGen,
                       handedOut := t.handedOut)
            && s.nextGen <= t.nextGen
  {
    if FinishReplyOf(s, e.rep) == Streams {
      PushStreamsFrame(Settle(s, e.rep), e.input, e.output, s.tunnels2[e.rep].value.job);
    }
  }

  lemma SideMapsFinish(s: Plane, e: Event)
    requires SideMaps(s) && Enabled(s, e) && e.FinishConnect?
    ensures SideMaps(Step(s, e))
  {
    hide SideMaps, Settle, PushStreams;
    var reply := FinishReplyOf(s, e.rep);
    if reply == Streams || reply.Reported? {
      SideMapsSettle(s, e.rep);
      if reply == Streams {
        SideMapsPush(Settle(s, e.rep), e.input, e.output, s.tunnels2[e.rep].value.job);
      }
    }
  }

  predicate Event3(e: Event) {
    e.Connect3Begin? || e.Connect3End? || e.Send3? || e.Receive3?
  }

  lemma Frame3(s: Plane, e: Event)
    requires Event3(e)
    ensures var t := Step3(s, e); t == s.(borrowed := t.borrowed, tunnels3 := t.tunnels3)
  {}

  lemma SideMapsConnect3(s: Plane, e: Event)
    requires SideMaps(s) && Enabled(s, e) && (e.Connect3Begin? || e.Connect3End?)
    ensures SideMaps(Step3(s, e))
  {
    if e.Connect3End? {
      NamesPut(s.tunnels3, s.live, Socket, e.rep, Owned(s.live[e.rep].gen, Tunnel3(true, true)));
    }
  }

  lemma SideMapsHalf3(s: Plane, e: Event)
    requires SideMaps(s) && (e.Send3? || e.Receive3?)
    ensures SideMaps(Step3(s, e))
  {
    if e.rep in s.tunnels3 {
      NamesPut(s.tunnels3, s.live, Socket, e.rep, Step3(s, e).tunnels3[e.rep]);
    }
  }

  lemma SideMapsStep(s: Plane, e: Event)
    requires SideMaps(s) && Enabled(s, e)
    ensures SideMaps(Step(s, e))
  {
    if e.Create? {
      SideMapsAdd(s, e.rep, e.kind);
    } else if e.DropSocket? || e.DropResolve? || e.DropOther? {
      SideMapsDrop(s, e);
    } else if JobEvent(e) {
      JobFrame(s, e);
    } else if e.ResolveAddresses? || e.ResolveNext? {
      SideMapsResolve(s, e);
    } else if e.StartConnect? {
      SideMapsStart(s, e);
    } else if e.FinishConnect? {
      SideMapsFinish(s, e);
    } else if e.Connect3Begin? || e.Connect3End? {
      SideMapsConnect3(s, e);
    } else {
      SideMapsHalf3(s, e);
    }
  }

  lemma {:induction false} SideMapsRun(s: Plane, es: seq<Event>)
    requires SideMaps(s) && ValidRun(s, es)
    ensures SideMaps(Final(s, es))
    decreases |es|
  {
    if es != [] {
      SideMapsStep(s, es[0]);
      SideMapsRun(Step(s, es[0]), es[1..]);
    }
  }

  /** Over all runs, every key of every side map names the live resource it was made
      for; so a resource that gets a used index starts with no tunnel and no drain state. */
  lemma SideMapsNameTheLive(prefix: Octets8, es: seq<Event>)
    requires ValidRun(Empty(prefix), es)
    ensures SideMaps(Final(Empty(prefix), es))
    ensures var s := Final(Empty(prefix), es);
            forall rep :: rep !in s.live ==> rep !in s.tunnels2 && rep !in s.tunnels3 && rep !in s.resolves
  {
    SideMapsRun(Empty(prefix), es);
  }

  // ---------------------------------------------------------------- 0.2 tunnels

  predicate TunnelsPointAtJobs(s: Plane) {
    && (forall k :: k in s.tunnels2 && s.tunnels2[k].value.Connecting? ==>
          && s.tunnels2[k].value.job < |s.jobs|
          && (s.jobs[s.tunnels2[k].value.job].slot.None? ==> s.jobs[s.tunnels2[k].value.job].phase != Over))
    && (forall k, l :: k in s.tunnels2 && l in s.tunnels2 && k != l ==>
          s.tunnels2[k].value.Connecting? ==> s.tunnels2[l].value.Connecting? ==>
          s.tunnels2[k].value.job != s.tunnels2[l].value.job)
  }

  /** A handshake result exists only if it may: success only past the address check. */
  predicate JobOk(j: Job) {
    && (j.slot.Some? ==> j.phase == Over)
    && (j.slot == Some(Ready) ==> j.accepted)
    && (j.done ==> j.phase == Over)
    && (j.phase == Dialing ==> j.accepted)
  }

  predicate JobsOk(s: Plane) {
    forall j :: 0 <= j < |s.jobs| ==> JobOk(s.jobs[j])
  }

  /** Streams handed out belong to accepted jobs whose slot is spent, each once. */
  predicate HandedOutOk(s: Plane) {
    && (forall i :: 0 <= i < |s.handedOut| ==>
          && s.handedOut[i] < |s.jobs| && s.jobs[s.handedOut[i]].accepted
          && s.jobs[s.handedOut[i]].phase == Over && s.jobs[s.handedOut[i]].slot.None?)
    && (forall i, k :: 0 <= i < k < |s.handedOut| ==> s.handedOut[i] != s.handedOut[k])
  }

  /** Where a job dials and whom it greets come from one minted entry. */
  predicate FromMint(mints: seq<Mint>, j: Job) {
    exists k :: 0 <= k < |mints| && mints[k].entry.hostname == j.hostname
                && PickAddr(mints[k].entry.addrs, j.dest.port) == Some(j.dest)
  }

  predicate JobsFromMints(s: Plane) {
    forall j :: 0 <= j < |s.jobs| ==> FromMint(s.mints, s.jobs[j])
  }

  predicate Inv(s: Plane) {
    SideMaps(s) && TunnelsPointAtJobs(s) && JobsOk(s) && HandedOutOk(s) && JobsFromMints(s)
  }

  lemma JobsOkFinish(s: Plane, e: Event)
    requires JobsOk(s) && Enabled(s, e) && e.FinishConnect?
    ensures JobsOk(FinishStep(s, e.rep, e.input, e.output))
  {
    if FinishReplyOf(s, e.rep) == Streams {
      PushStreamsFrame(Settle(s, e.rep), e.input, e.output, s.tunnels2[e.rep].value.job);
    }
  }

  lemma JobsOkJob(s: Plane, e: Event)
    requires JobsOk(s) && Enabled(s, e) && JobEvent(e)
    ensures JobsOk(JobStep(s, e))
  {}

  lemma JobsOkStep(s: Plane, e: Event)
    requires JobsOk(s) && Enabled(s, e)
    ensures JobsOk(Step(s, e))
  {
    if e.FinishConnect? {
      JobsOkFinish(s, e);
    } else if JobEvent(e) {
      JobsOkJob(s, e);
    } else if !e.StartConnect? {
      OthersFrame(s, e);
    }
  }

  lemma TunnelsJob(s: Plane, e: Event)
    requires TunnelsPointAtJobs(s) && HandedOutOk(s) && JobsOk(s) && Enabled(s, e) && JobEvent(e)
    ensures TunnelsPointAtJobs(Step(s, e)) && HandedOutOk(Step(s, e))
  {
    JobFrame(s, e);
    var t := Step(s, e);
    assert forall j :: 0 <= j < |s.jobs| && j != e.job ==> t.jobs[j] == s.jobs[j];
    assert t.jobs[e.job].slot.None? ==> t.jobs[e.job].phase != Over || s.jobs[e.job].phase == Over;
  }

  lemma TunnelsStart(s: Plane, e: Event)
    requires TunnelsPointAtJobs(s) && HandedOutOk(s) && Enabled(s, e) && e.StartConnect?
    ensures TunnelsPointAtJobs(Step(s, e)) && HandedOutOk(Step(s, e))
  {}

  lemma TunnelsSettle(s: Plane, rep: nat)
    requires TunnelsPointAtJobs(s) && HandedOutOk(s) && JobsOk(s)
    requires FinishReplyOf(s, rep) == Streams || FinishReplyOf(s, rep).Reported?
    ensures TunnelsPointAtJobs(Settle(s, rep)) && HandedOutOk(Settle(s, rep))
  {}

  /** The job whose streams go out now was never handed out before. */
  lemma FirstHandOut(s: Plane, rep: nat)
    requires HandedOutOk(s) && JobsOk(s) && FinishReplyOf(s, rep) == Streams
    ensures var j := s.tunnels2[rep].value.job;
            var t := Settle(s, rep);
            && j !in s.handedOut && t.handedOut == s.handedOut
            && j < |t.jobs| && t.jobs[j].accepted && t.jobs[j].phase == Over && t.jobs[j].slot.None?
  {}

  lemma TunnelsFinish(s: Plane, e: Event)
    requires TunnelsPointAtJobs(s) && HandedOutOk(s) && JobsOk(s) && Enabled(s, e) && e.FinishConnect?
    ensures TunnelsPointAtJobs(FinishStep(s, e.rep, e.input, e.output))
    ensures HandedOutOk(FinishStep(s, e.rep, e.input, e.output))
  {
    hide Settle, PushStreams;
    var reply := FinishReplyOf(s, e.rep);
    if reply == Streams || reply.Reported? {
      TunnelsSettle(s, e.rep);
      if reply == Streams {
        FirstHandOut(s, e.rep);
        PushStreamsFrame(Settle(s, e.rep), e.input, e.output, s.tunnels2[e.rep].value.job);
      }
    }
  }

  /** The rest leave jobs and hand-outs alone and at most drop 0.2 tunnels. */
  lemma OthersFrame(s: Plane, e: Event)
    requires Enabled(s, e) && !JobEvent(e) && !e.StartConnect? && !e.FinishConnect?
    ensures Step(s, e).jobs == s.jobs && Step(s, e).handedOut == s.handedOut
    ensures forall k :: k in Step(s, e).tunnels2 ==> k in s.tunnels2 && Step(s, e).tunnels2[k] == s.tunnels2[k]
    ensures s.mints <= Step(s, e).mints
  {
    OthersTunnels(s, e);
  }

  lemma {:induction false} LookupIsMinted(prefix: Octets8, mints: seq<Mint>, addr: V6)
    requires Lookup(prefix, EntriesAfter(mints), addr).Some?
    ensures exists k :: 0 <= k < |mints| && mints[k].entry == Lookup(prefix, EntriesAfter(mints), addr).value
  {
    LookupIsNewest(prefix, mints, addr);
    NewestIsMinted(prefix, mints, addr);
  }

  lemma {:induction false} NewestIsMinted(prefix: Octets8, mints: seq<Mint>, addr: V6)
    requires NewestFor(prefix, mints, addr).Some?
    ensures exists k :: 0 <= k < |mints| && mints[k].entry == NewestFor(prefix, mints, addr).value
  {
    var n := |mints| - 1;
    if HandleAddress(prefix, mints[n].suffix) != addr {
      NewestIsMinted(prefix, mints[..n], addr);
      var k :| 0 <= k < n && mints[..n][k].entry == NewestFor(prefix, mints[..n], addr).value;
      assert mints[k] == mints[..n][k];
    }
  }

  lemma MintedStill(mints: seq<Mint>, more: seq<Mint>, j: Job)
    requires FromMint(mints, j) && mints <= more
    ensures FromMint(more, j)
  {
    var k :| 0 <= k < |mints| && mints[k].entry.hostname == j.hostname
             && PickAddr(mints[k].entry.addrs, j.dest.port) == Some(j.dest);
    assert more[k] == mints[k];
  }

  lemma JobsKeepAim(s: Plane, e: Event, j: nat)
    requires Enabled(s, e) && j < |s.jobs|
    ensures j < |Step(s, e).jobs| && s.mints <= Step(s, e).mints
    ensures Step(s, e).jobs[j].hostname == s.jobs[j].hostname && Step(s, e).jobs[j].dest == s.jobs[j].dest
  {
    if !JobEvent(e) && !e.StartConnect? && !e.FinishConnect? {
      OthersFrame(s, e);
    }
  }

  lemma JobsFromMintsStep(s: Plane, e: Event)
    requires JobsFromMints(s) && Enabled(s, e)
    ensures JobsFromMints(Step(s, e))
  {
    var t := Step(s, e);
    forall j | 0 <= j < |t.jobs| ensures FromMint(t.mints, t.jobs[j]) {
      if j < |s.jobs| {
        JobsKeepAim(s, e, j);
        MintedStill(s.mints, t.mints, s.jobs[j]);
        assert FromMint(t.mints, s.jobs[j]);
      } else {
        NewJob(s, e, j);
      }
    }
  }

  lemma NewJob(s: Plane, e: Event, j: nat)
    requires Enabled(s, e) && |s.jobs| <= j < |Step(s, e).jobs|
    ensures FromMint(Step(s, e).mints, Step(s, e).jobs[j])
  {
    LookupIsMinted(s.prefix, s.mints, e.dialed.ip.v6);
  }

  lemma InvStep(s: Plane, e: Event)
    requires Inv(s) && Enabled(s, e)
    ensures Inv(Step(s, e))
  {
    SideMapsStep(s, e);
    JobsOkStep(s, e);
    JobsFromMintsStep(s, e);
    if JobEvent(e) {
      TunnelsJob(s, e);
    } else if e.StartConnect? {
      TunnelsStart(s, e);
    } else if e.FinishConnect? {
      TunnelsFinish(s, e);
    } else {
      OthersFrame(s, e);
    }
  }

  lemma {:induction false} InvRun(s: Plane, es: seq<Event>)
    requires Inv(s) && ValidRun(s, es)
    ensures Inv(Final(s, es))
    decreases |es|
  {
    if es != [] {
      InvStep(s, es[0]);
      InvRun(Step(s, es[0]), es[1..]);
    }
  }

  /** The event that ends a handshake, and how: an address check that refuses, or the
      outcome of dialling and greeting. */
  predicate Concludes(e: Event, j: nat, outcome: Handshake) {
    e == JobEnd(j, outcome) || (e == JobCheck(j, false) && outcome == Refused(ACCESS_DENIED))
  }

  /** One job under one event: the check alone accepts it, and an outcome once stored
      stays until it is taken. */
  lemma JobFields(s: Plane, e: Event, j: nat)
    requires Enabled(s, e) && j < |s.jobs|
    ensures var t := Step(s, e);
            && j < |t.jobs|
            && (t.jobs[j].accepted <==> s.jobs[j].accepted || e == JobCheck(j, true))
            && (t.jobs[j].done <==> s.jobs[j].done || e == JobSignal(j))
            && (s.jobs[j].phase == Over ==>
                  t.jobs[j].phase == Over && (t.jobs[j].slot == s.jobs[j].slot || t.jobs[j].slot == None))
            && (t.jobs[j].slot.Some? ==> t.jobs[j].slot == s.jobs[j].slot || Concludes(e, j, t.jobs[j].slot.value))
  {
    hide StartStep, FinishStep, Step3;
    if e.StartConnect? {
      StartJobs(s, e);
    } else if e.FinishConnect? {
      FinishJobs(s, e, j);
    } else if !JobEvent(e) {
      OthersTunnels(s, e);
    }
  }

  lemma StartJobs(s: Plane, e: Event)
    requires Enabled(s, e) && e.StartConnect?
    ensures var t := StartStep(s, e.rep, e.dialed, e.networkOk);
            && s.jobs <= t.jobs && |t.jobs| <= |s.jobs| + 1 && t.handedOut == s.handedOut
            && (|t.jobs| > |s.jobs| ==>
                  var j := t.jobs[|s.jobs|]; j.slot == None && !j.accepted && !j.done)
  {}

  lemma FinishJobs(s: Plane, e: Event, j: nat)
    requires e.FinishConnect? && j < |s.jobs|
    ensures var t := FinishStep(s, e.rep, e.input, e.output);
            && |t.jobs| == |s.jobs| && t.jobs[j] == s.jobs[j].(slot := t.jobs[j].slot)
            && (t.jobs[j].slot == s.jobs[j].slot || t.jobs[j].slot == None)
            && (j in t.handedOut ==> j in s.handedOut || s.jobs[j].slot == Some(Ready))
  {
    if FinishReplyOf(s, e.rep) == Streams {
      PushStreamsFrame(Settle(s, e.rep), e.input, e.output, s.tunnels2[e.rep].value.job);
    }
  }

  lemma NewJobFields(s: Plane, e: Event, j: nat)
    requires Enabled(s, e) && |s.jobs| <= j < |Step(s, e).jobs|
    ensures var t := Step(s, e); !t.jobs[j].accepted && !t.jobs[j].done && t.jobs[j].slot == None
  {
    hide FinishStep, Step3;
    if e.StartConnect? {
      StartJobs(s, e);
    } else if e.FinishConnect? {
      FinishLength(s, e);
    } else if !JobEvent(e) {
      OthersTunnels(s, e);
    }
  }

  lemma FinishLength(s: Plane, e: Event)
    requires e.FinishConnect?
    ensures |FinishStep(s, e.rep, e.input, e.output).jobs| == |s.jobs|
  {
    if FinishReplyOf(s, e.rep) == Streams {
      PushStreamsFrame(Settle(s, e.rep), e.input, e.output, s.tunnels2[e.rep].value.job);
    }
  }

  /** A job is accepted exactly when the run holds the address check that let it pass,
      and its readiness flag is up exactly when the run raised it. */
  lemma {:induction false} AcceptedRun(s: Plane, es: seq<Event>, j: nat)
    requires ValidRun(s, es) && j < |Final(s, es).jobs|
    ensures Final(s, es).jobs[j].accepted <==> (j < |s.jobs| && s.jobs[j].accepted) || JobCheck(j, true) in es
    ensures Final(s, es).jobs[j].done <==> (j < |s.jobs| && s.jobs[j].done) || JobSignal(j) in es
    decreases |es|
  {
    if es != [] {
      hide Step, Enabled;
      var t := Step(s, es[0]);
      AcceptedRun(t, es[1..], j);
      if j < |s.jobs| {
        JobFields(s, es[0], j);
      } else {
        NotYet(s, es[0], j);
        if j < |t.jobs| {
          NewJobFields(s, es[0], j);
        }
      }
    }
  }

  predicate Concluded(es: seq<Event>, j: nat, outcome: Handshake) {
    JobEnd(j, outcome) in es || (JobCheck(j, false) in es && outcome == Refused(ACCESS_DENIED))
  }

  lemma {:induction false} OutcomeRun(s: Plane, es: seq<Event>, j: nat)
    requires ValidRun(s, es) && j < |Final(s, es).jobs| && Final(s, es).jobs[j].slot.Some?
    ensures var slot := Final(s, es).jobs[j].slot;
            (j < |s.jobs| && s.jobs[j].slot == slot) || Concluded(es, j, slot.value)
    decreases |es|
  {
    if es != [] {
      hide Step, Enabled;
      var t := Step(s, es[0]);
      OutcomeRun(t, es[1..], j);
      if j < |s.jobs| {
        JobFields(s, es[0], j);
      } else if j < |t.jobs| {
        NewJobFields(s, es[0], j);
      }
    }
  }

  /** And nothing else makes it tell so: what `finish_connect` tells is how the run ended
      this handshake; one that died tells nothing, ever. */
  lemma ReportedWasConcluded(prefix: Octets8, es: seq<Event>, rep: nat)
    requires ValidRun(Empty(prefix), es)
    ensures var s := Final(Empty(prefix), es);
            && (FinishReplyOf(s, rep) == Streams ==> Concluded(es, s.tunnels2[rep].value.job, Ready))
            && (FinishReplyOf(s, rep).Reported? ==>
                  Concluded(es, s.tunnels2[rep].value.job, Refused(FinishReplyOf(s, rep).code)))
  {
    var s := Final(Empty(prefix), es);
    if FinishReplyOf(s, rep) == Streams || FinishReplyOf(s, rep).Reported? {
      OutcomeRun(Empty(prefix), es, s.tunnels2[rep].value.job);
    }
  }

  lemma NotYet(s: Plane, e: Event, j: nat)
    requires Enabled(s, e) && |s.jobs| <= j
    ensures !JobEvent(e) || e.job != j
  {}

  /** The handshake succeeded: its outcome is there, or was handed out. */
  predicate Greeted(s: Plane, j: nat) {
    j in s.handedOut || (j < |s.jobs| && s.jobs[j].slot == Some(Ready))
  }

  lemma GreetedStep(s: Plane, e: Event, j: nat)
    requires Enabled(s, e) && Greeted(Step(s, e), j)
    ensures Greeted(s, j) || e == JobEnd(j, Ready)
  {
    hide StartStep, FinishStep, Step3;
    if j < |s.jobs| {
      JobFields(s, e, j);
    } else if j < |Step(s, e).jobs| {
      NewJobFields(s, e, j);
    }
    if e.StartConnect? {
      StartJobs(s, e);
    } else if e.FinishConnect? {
      if j in Step(s, e).handedOut {
        HandsOutKnown(s, e, j);
      }
    } else if JobEvent(e) {
      JobFrame(s, e);
    } else {
      OthersTunnels(s, e);
    }
  }

  lemma HandsOutKnown(s: Plane, e: Event, j: nat)
    requires e.FinishConnect? && j in FinishStep(s, e.rep, e.input, e.output).handedOut
    ensures j in s.handedOut || (j < |s.jobs| && s.jobs[j].slot == Some(Ready))
  {
    if FinishReplyOf(s, e.rep) == Streams {
      PushStreamsFrame(Settle(s, e.rep), e.input, e.output, s.tunnels2[e.rep].value.job);
    }
  }

  lemma {:induction false} GreetedRun(s: Plane, es: seq<Event>, j: nat)
    requires ValidRun(s, es) && Greeted(Final(s, es), j)
    ensures Greeted(s, j) || JobEnd(j, Ready) in es
    decreases |es|
  {
    if es != [] {
      hide Step, Enabled, Greeted;
      var t := Step(s, es[0]);
      GreetedRun(t, es[1..], j);
      if Greeted(t, j) {
        GreetedStep(s, es[0], j);
      }
    }
  }

  lemma {:induction false} OutcomeStays(s: Plane, es: seq<Event>, j: nat)
    requires ValidRun(s, es) && j < |s.jobs| && s.jobs[j].phase == Over
    ensures var t := Final(s, es);
            && j < |t.jobs| && t.jobs[j].phase == Over
            && (t.jobs[j].slot == s.jobs[j].slot || t.jobs[j].slot == None)
    decreases |es|
  {
    if es != [] {
      hide Step, Enabled;
      JobFields(s, es[0], j);
      OutcomeStays(Step(s, es[0]), es[1..], j);
    }
  }

  lemma EmptyInv(prefix: Octets8)
    ensures Inv(Empty(prefix))
  {}

  /** However a handshake ended, and however much later it is asked, the first
      `finish_connect` on its socket tells exactly that. */
  lemma OutcomeReported(prefix: Octets8, es: seq<Event>, e: Event, later: seq<Event>,
                        rep: nat, j: nat, outcome: Handshake)
    requires ValidRun(Empty(prefix), es) && Enabled(Final(Empty(prefix), es), e) && Concludes(e, j, outcome)
    requires var u := Step(Final(Empty(prefix), es), e);
             && ValidRun(u, later) && rep in Final(u, later).tunnels2
             && Final(u, later).tunnels2[rep].value == Connecting(j)
    ensures var t := Final(Step(Final(Empty(prefix), es), e), later);
            && (outcome == Ready ==> FinishReplyOf(t, rep) == Streams)
            && (outcome.Refused? ==> FinishReplyOf(t, rep) == Reported(outcome.code))
  {
    hide SideMaps, TunnelsPointAtJobs, JobsOk, HandedOutOk, JobsFromMints, Step, Enabled;
    var s := Final(Empty(prefix), es);
    var u := Step(s, e);
    EmptyInv(prefix);
    InvRun(Empty(prefix), es);
    InvStep(s, e);
    InvRun(u, later);
    ConcludedNow(s, e, j, outcome);
    OutcomeStays(u, later, j);
    Pending(Final(u, later), rep);
  }

  lemma ConcludedNow(s: Plane, e: Event, j: nat, outcome: Handshake)
    requires Enabled(s, e) && Concludes(e, j, outcome)
    ensures var u := Step(s, e); j < |u.jobs| && u.jobs[j].phase == Over && u.jobs[j].slot == Some(outcome)
  {}

  lemma Pending(t: Plane, rep: nat)
    requires Inv(t) && rep in t.tunnels2 && t.tunnels2[rep].value.Connecting?
    ensures var j := t.tunnels2[rep].value.job;
            j < |t.jobs| && (t.jobs[j].phase == Over ==> t.jobs[j].slot.Some?)
  {}

  /** Streams are handed out at most once per handshake, only after the address check
      accepted the destination and the handshake succeeded, and that destination and server name are those of one
      minted handle. */
  lemma StreamsHandedOutOnce(prefix: Octets8, es: seq<Event>, i: nat)
    requires ValidRun(Empty(prefix), es) && i < |Final(Empty(prefix), es).handedOut|
    ensures var s := Final(Empty(prefix), es);
            var j := s.handedOut[i];
            && j < |s.jobs| && FromMint(s.mints, s.jobs[j])
            && JobCheck(j, true) in es && JobEnd(j, Ready) in es
            && (forall k :: 0 <= k < |s.handedOut| && k != i ==> s.handedOut[k] != j)
            && (forall rep :: rep in s.tunnels2 && FinishReplyOf(s, rep) == Streams ==> s.tunnels2[rep].value.job != j)
  {
    InvRun(Empty(prefix), es);
    var j := Final(Empty(prefix), es).handedOut[i];
    AcceptedRun(Empty(prefix), es, j);
    GreetedRun(Empty(prefix), es, j);
  }

  /** `finish_connect` would block exactly while the handshake has produced nothing;
      in particular not once the readiness flag is up. */
  lemma FinishBlocksIff(prefix: Octets8, es: seq<Event>, rep: nat)
    requires ValidRun(Empty(prefix), es)
    requires var s := Final(Empty(prefix), es); rep in s.tunnels2 && s.tunnels2[rep].value.Connecting?
    ensures var s := Final(Empty(prefix), es);
            var j := s.tunnels2[rep].value.job;
            && j < |s.jobs|
            && (FinishReplyOf(s, rep) == WouldBlock <==> s.jobs[j].phase != Over)
            && (JobSignal(j) in es ==> FinishReplyOf(s, rep) == Streams || FinishReplyOf(s, rep).Reported?)
  {
    InvRun(Empty(prefix), es);
    AcceptedRun(Empty(prefix), es, Final(Empty(prefix), es).tunnels2[rep].value.job);
  }

  /** The socket's place in the two-phase connect, as seen from outside. */
  datatype Place = Absent | AtConnecting | AtConnected | AtFailed

  function PlaceOf(s: Plane, rep: nat): Place {
    if rep !in s.tunnels2 then Absent
    else match s.tunnels2[rep].value
      case Connecting(_) => AtConnecting
      case Connected(_) => AtConnected
      case Failed => AtFailed
  }

  predicate Moves(a: Place, b: Place) {
    a == b || (a == Absent && b == AtConnecting) ||
    (a == AtConnecting && (b == AtConnected || b == AtFailed))
  }

  /** A socket only moves from absent to connecting to connected or failed, until dropped. */
  lemma SocketMoves(s: Plane, e: Event, rep: nat)
    requires SideMaps(s) && Enabled(s, e)
    ensures Moves(PlaceOf(s, rep), PlaceOf(Step(s, e), rep)) || (e.DropSocket? && e.rep == rep)
    ensures PlaceOf(s, rep) == AtConnecting && PlaceOf(Step(s, e), rep) != AtConnecting && !e.DropSocket? ==>
              e.FinishConnect? && e.rep == rep
  {
    hide JobStep, StartStep, FinishStep, Step3;
    if JobEvent(e) {
      JobFrame(s, e);
    } else if e.StartConnect? {
      StartMoves(s, e, rep);
    } else if e.FinishConnect? {
      FinishMoves(s, e, rep);
    } else {
      OthersTunnels(s, e);
    }
  }

  lemma StartMoves(s: Plane, e: Event, rep: nat)
    requires Enabled(s, e) && e.StartConnect?
    ensures var t := StartStep(s, e.rep, e.dialed, e.networkOk);
            PlaceOf(t, rep) == PlaceOf(s, rep) || (PlaceOf(s, rep) == Absent && PlaceOf(t, rep) == AtConnecting)
  {}

  lemma FinishMoves(s: Plane, e: Event, rep: nat)
    requires e.FinishConnect?
    ensures var t := FinishStep(s, e.rep, e.input, e.output);
            || PlaceOf(t, rep) == PlaceOf(s, rep)
            || (rep == e.rep && PlaceOf(s, rep) == AtConnecting
                && (PlaceOf(t, rep) == AtConnected || PlaceOf(t, rep) == AtFailed))
  {
    if FinishReplyOf(s, e.rep) == Streams {
      PushStreamsFrame(Settle(s, e.rep), e.input, e.output, s.tunnels2[e.rep].value.job);
    }
  }

  lemma OthersTunnels(s: Plane, e: Event)
    requires Enabled(s, e) && !JobEvent(e) && !e.StartConnect? && !e.FinishConnect?
    ensures Step(s, e).tunnels2 == if e.DropSocket? then s.tunnels2 - {e.rep} else s.tunnels2
    ensures Step(s, e).jobs == s.jobs && Step(s, e).handedOut == s.handedOut
    ensures s.mints <= Step(s, e).mints
  {
    hide Step3;
    if Event3(e) {
      Frame3(s, e);
    }
  }

  /** How often a run answers `finish_connect` on this index with streams. */
  function HandOuts(s: Plane, es: seq<Event>, rep: nat): nat
    requires ValidRun(s, es)
    decreases |es|
  {
    if es == [] then 0
    else (if HandsOut(s, es[0], rep) then 1 else 0) + HandOuts(Step(s, es[0]), es[1..], rep)
  }

  predicate HandsOut(s: Plane, e: Event, rep: nat) {
    e.FinishConnect? && e.rep == rep && FinishAnswer(s, rep, e.input, e.output) == Streams
  }

  lemma HandOutMoves(s: Plane, e: Event, rep: nat)
    requires Enabled(s, e) && HandsOut(s, e, rep)
    ensures PlaceOf(s, rep) == AtConnecting && PlaceOf(Step(s, e), rep) == AtConnected
  {
    PushStreamsFrame(Settle(s, rep), e.input, e.output, s.tunnels2[rep].value.job);
  }

  lemma {:induction false} HandOutsBounded(s: Plane, es: seq<Event>, rep: nat)
    requires SideMaps(s) && ValidRun(s, es)
    requires forall e :: e in es ==> !(e.DropSocket? && e.rep == rep)
    ensures HandOuts(s, es, rep) <= 1
    ensures PlaceOf(s, rep) == AtConnected || PlaceOf(s, rep) == AtFailed ==> HandOuts(s, es, rep) == 0
    decreases |es|
  {
    hide SideMaps, Step, Enabled, HandsOut, PlaceOf;
    if es != [] {
      var e := es[0];
      assert e in es;
      SideMapsStep(s, e);
      SocketMoves(s, e, rep);
      HandOutsBounded(Step(s, e), es[1..], rep);
      if HandsOut(s, e, rep) {
        HandOutMoves(s, e, rep);
      }
    }
  }

  /** Over every run, between two drops of a socket its streams are handed out at most
      once, and not at all after it was connected or had failed before. */
  lemma SocketHandsOutOnce(prefix: Octets8, es: seq<Event>, later: seq<Event>, rep: nat)
    requires ValidRun(Empty(prefix), es) && ValidRun(Final(Empty(prefix), es), later)
    requires forall e :: e in later ==> !(e.DropSocket? && e.rep == rep)
    ensures var s := Final(Empty(prefix), es);
            && HandOuts(s, later, rep) <= 1
            && (PlaceOf(s, rep) == AtConnected || PlaceOf(s, rep) == AtFailed ==> HandOuts(s, later, rep) == 0)
  {
    SideMapsRun(Empty(prefix), es);
    HandOutsBounded(Final(Empty(prefix), es), later, rep);
  }

  /** Dialling a minted handle greets the stored name at the picked stored address. */
  lemma DialStartsHandshake(s: Plane, rep: nat, handle: V6, port: Port, entry: Entry)
    requires IsLive(s, rep, Socket) && rep !in s.tunnels2
    requires Lookup(s.prefix, EntriesAfter(s.mints), handle) == Some(entry) && entry.addrs != []
    ensures var t := Step(s, StartConnect(rep, SocketAddr(Ipv6(handle), port), true));
            && |t.jobs| == |s.jobs| + 1 && t.tunnels2[rep].value == Connecting(|s.jobs|)
            && t.jobs[|s.jobs|].hostname == entry.hostname
            && Some(t.jobs[|s.jobs|].dest) == PickAddr(entry.addrs, port)
            && t.jobs[|s.jobs|].phase == Checking && !t.jobs[|s.jobs|].accepted
  {}

  // ---------------------------------------------------------------- what dialling answers

  /** No handle was ever minted without an address behind it. */
  predicate Addressed(mints: seq<Mint>) {
    forall k :: 0 <= k < |mints| ==> mints[k].entry.addrs != []
  }

  lemma MintsAnAddress(prefix: Octets8, suffix: Octets8, state: Resolve, items: seq<Item>)
    ensures var o := NextAddress(prefix, suffix, state, items); o.minted.Some? ==> o.minted.value.addrs != []
  {
    if state.Draining? {
      NextAddressUses(prefix, suffix, state, items);
    } else {
      NextAddressYielded(prefix, suffix, items);
    }
  }

  lemma {:induction false} AddressedRun(s: Plane, es: seq<Event>)
    requires Addressed(s.mints) && ValidRun(s, es)
    ensures Addressed(Final(s, es).mints)
    decreases |es|
  {
    if es != [] {
      AddressedStep(s, es[0]);
      AddressedRun(Step(s, es[0]), es[1..]);
    }
  }

  lemma AddressedStep(s: Plane, e: Event)
    requires Addressed(s.mints) && Enabled(s, e)
    ensures Addressed(Step(s, e).mints)
  {
    hide NextAddress;
    if e.ResolveNext? {
      if e.rep in s.resolves {
        MintsAnAddress(s.prefix, e.suffix, s.resolves[e.rep].value, e.items);
      }
    } else if !e.ResolveAddresses? {
      RecordsFrame(s, e);
    }
  }

  /** A destination that is a handle minted in this run. */
  predicate IsHandle(s: Plane, dialed: SocketAddr) {
    dialed.ip.Ipv6? && NewestFor(s.prefix, s.mints, dialed.ip.v6).Some?
  }

  /** Over every run: what is not a handle goes to the real sockets; a handle starts a
      handshake, unless the socket already has a tunnel or the network is not one; and
      no handle is ever unreachable for want of an address. */
  lemma StartReplies(prefix: Octets8, es: seq<Event>, rep: nat, dialed: SocketAddr, networkOk: bool)
    requires ValidRun(Empty(prefix), es)
    ensures var s := Final(Empty(prefix), es);
            var reply := StartReplyOf(s, rep, dialed, networkOk);
            && (!IsHandle(s, dialed) ==> reply == Delegated)
            && (IsHandle(s, dialed) && rep in s.tunnels2 ==> reply == InvalidState)
            && (IsHandle(s, dialed) && rep !in s.tunnels2 && !networkOk ==> reply == BadNetwork)
            && (IsHandle(s, dialed) && rep !in s.tunnels2 && networkOk ==> reply == Started)
  {
    AddressedRun(Empty(prefix), es);
    var s := Final(Empty(prefix), es);
    if dialed.ip.Ipv6? {
      LookupIsNewest(s.prefix, s.mints, dialed.ip.v6);
      if IsHandle(s, dialed) {
        NewestIsMinted(s.prefix, s.mints, dialed.ip.v6);
      }
    }
  }

  // ---------------------------------------------------------------- the 0.3 halves

  /** The call that takes this half of this socket's tunnel. */
  predicate TakesHalf(s: Plane, e: Event, rep: nat, write: bool) {
    rep in s.tunnels3 &&
    if write then e == Send3(rep) && s.tunnels3[rep].value.write
    else e == Receive3(rep) && s.tunnels3[rep].value.read
  }

  function HalvesTaken(s: Plane, es: seq<Event>, rep: nat, write: bool): nat
    requires ValidRun(s, es)
    decreases |es|
  {
    if es == [] then 0
    else (if TakesHalf(s, es[0], rep, write) then 1 else 0) + HalvesTaken(Step(s, es[0]), es[1..], rep, write)
  }

  /** A connect brings a new tunnel, and only a drop takes one away. */
  predicate Renews(e: Event, rep: nat) {
    e == Connect3End(rep, true) || (e.DropSocket? && e.rep == rep)
  }

  predicate HalfGone(s: Plane, rep: nat, write: bool) {
    rep !in s.tunnels3 || !(if write then s.tunnels3[rep].value.write else s.tunnels3[rep].value.read)
  }

  lemma HalfStep(s: Plane, e: Event, rep: nat, write: bool)
    requires Enabled(s, e) && !Renews(e, rep)
    ensures HalfGone(Step(s, e), rep, write) <==> HalfGone(s, rep, write) || TakesHalf(s, e, rep, write)
    ensures TakesHalf(s, e, rep, write) ==> !HalfGone(s, rep, write)
  {
    hide JobStep, StartStep, FinishStep;
    if JobEvent(e) {
      JobFrame(s, e);
    } else if e.FinishConnect? {
      FinishFrame(s, e);
    } else if e.StartConnect? {
      StartTunnels3(s, e);
    }
  }

  lemma StartTunnels3(s: Plane, e: Event)
    requires Enabled(s, e) && e.StartConnect?
    ensures var t := StartStep(s, e.rep, e.dialed, e.networkOk);
            t.tunnels3 == s.tunnels3 && t.borrowed == s.borrowed
  {}

  lemma {:induction false} HalvesTakenOnce(s: Plane, es: seq<Event>, rep: nat, write: bool)
    requires ValidRun(s, es) && forall e :: e in es ==> !Renews(e, rep)
    ensures HalvesTaken(s, es, rep, write) ==
            if !HalfGone(s, rep, write) && HalfGone(Final(s, es), rep, write) then 1 else 0
    ensures HalfGone(s, rep, write) ==> HalfGone(Final(s, es), rep, write)
    decreases |es|
  {
    if es != [] {
      hide Step, Enabled, TakesHalf, HalfGone;
      assert es[0] in es;
      HalfStep(s, es[0], rep, write);
      HalvesTakenOnce(Step(s, es[0]), es[1..], rep, write);
    }
  }

  lemma BorrowStep(s: Plane, e: Event, rep: nat)
    requires Enabled(s, e) && rep in s.borrowed && !(e.Connect3End? && e.rep == rep)
    ensures rep in Step(s, e).borrowed
  {
    hide JobStep, StartStep, FinishStep;
    if JobEvent(e) {
      JobFrame(s, e);
    } else if e.FinishConnect? {
      FinishFrame(s, e);
    } else if e.StartConnect? {
      StartTunnels3(s, e);
    }
  }

  lemma {:induction false} BorrowStays(s: Plane, es: seq<Event>, rep: nat)
    requires ValidRun(s, es) && rep in s.borrowed && forall e :: e in es ==> !(e.Connect3End? && e.rep == rep)
    ensures rep in Final(s, es).borrowed
    decreases |es|
  {
    if es != [] {
      hide Step, Enabled;
      assert es[0] in es;
      BorrowStep(s, es[0], rep);
      BorrowStays(Step(s, es[0]), es[1..], rep);
    }
  }

  /** A socket under a 0.3 connect is not dropped before the connect is over, and the
      connect can end at any time. */
  lemma ConnectHoldsSocket(s: Plane, es: seq<Event>, rep: nat)
    requires Enabled(s, Connect3Begin(rep)) && ValidRun(Step(s, Connect3Begin(rep)), es)
    requires forall e :: e in es ==> !(e.Connect3End? && e.rep == rep)
    ensures var t := Final(Step(s, Connect3Begin(rep)), es);
            forall b: bool :: Enabled(t, Connect3End(rep, b)) && !Enabled(t, DropSocket(rep, b))
  {
    BorrowStays(Step(s, Connect3Begin(rep)), es, rep);
  }

  /** A 0.3 connect puts both halves at hand, and leaves every other tunnel alone. */
  lemma Connect3Tunnels(s: Plane, rep: nat)
    requires SideMaps(s) && Enabled(s, Connect3End(rep, true))
    ensures var t := Step(s, Connect3End(rep, true));
            && !HalfGone(t, rep, true) && !HalfGone(t, rep, false)
            && t.tunnels3 == s.tunnels3[rep := t.tunnels3[rep]] && t.tunnels2 == s.tunnels2
  {}

  // ---------------------------------------------------------------- the whole seam

  /** A resolution on record: until the wrapped stream ended with an address, no handle
      was answered; then exactly one, minted for the stripped name with every address
      given before that end, in order. */
  predicate AskedOk(prefix: Octets8, mints: seq<Mint>, a: Asked) {
    var all := Addresses(a.given);
    && StripSuffix(a.name).Some?
    && if EndOfAddresses in a.given && all != [] then
         && a.mint.Some? && a.mint.value < |mints|
         && mints[a.mint.value].entry == Entry(StripSuffix(a.name).value, all)
         && var handle := HandleAddress(prefix, mints[a.mint.value].suffix);
            exists k :: 0 <= k < |a.answers| && AnsweredAt(a.answers, handle, k)
       else a.mint == None && forall i :: 0 <= i < |a.answers| ==> !a.answers[i].Handle?
  }

  /** The drain state against the record. */
  predicate Matches(state: Resolve, a: Asked) {
    match state
    case Draining(h, addrs) =>
      StripSuffix(a.name) == Some(h) && addrs == Addresses(a.given) && EndOfAddresses !in a.given
    case Yielded => EndOfAddresses in a.given
  }

  predicate Records(s: Plane) {
    && (forall g :: g in s.asked ==> g < s.nextGen && AskedOk(s.prefix, s.mints, s.asked[g]))
    && (forall k :: k in s.resolves ==>
          s.resolves[k].gen in s.asked && Matches(s.resolves[k].value, s.asked[s.resolves[k].gen]))
    && (forall k, l :: k in s.resolves && l in s.resolves && k != l ==> s.resolves[k].gen != s.resolves[l].gen)
  }

  lemma AskedStill(prefix: Octets8, mints: seq<Mint>, more: seq<Mint>, a: Asked)
    requires AskedOk(prefix, mints, a) && mints <= more
    ensures AskedOk(prefix, more, a)
  {}

  /** One call on a resolution keeps its record right. */
  lemma CallRecorded(prefix: Octets8, mints: seq<Mint>, a: Asked, state: Resolve, suffix: Octets8, items: seq<Item>)
    requires AskedOk(prefix, mints, a) && Matches(state, a)
    ensures var o := NextAddress(prefix, suffix, state, items);
            var b := Recorded(a, items, o, |mints|);
            var after := if o.minted.Some? then mints + [Mint(suffix, o.minted.value)] else mints;
            AskedOk(prefix, after, b) && Matches(o.state, b)
  {
    hide NextAddress, Addresses;
    var o := NextAddress(prefix, suffix, state, items);
    var b := Recorded(a, items, o, |mints|);
    AddressesAppend(a.given, Used(items, o));
    if state.Draining? {
      NextAddressUses(prefix, suffix, state, items);
      if o.minted.Some? {
        assert AnsweredAt(b.answers, HandleAddress(prefix, suffix), |a.answers|);
      }
    } else {
      NextAddressYielded(prefix, suffix, items);
      if a.mint.Some? {
        var handle := HandleAddress(prefix, mints[a.mint.value].suffix);
        var k :| 0 <= k < |a.answers| && AnsweredAt(a.answers, handle, k);
        assert AnsweredAt(b.answers, handle, k);
      }
    }
  }

  lemma RecordsCall(s: Plane, rep: nat, suffix: Octets8, items: seq<Item>)
    requires Records(s)
    ensures Records(ResolveStep(s, rep, suffix, items))
  {
    hide AskedOk, Matches, NextAddress, Recorded;
    if rep in s.resolves {
      var t := ResolveStep(s, rep, suffix, items);
      var g := s.resolves[rep].gen;
      CallRecorded(s.prefix, s.mints, s.asked[g], s.resolves[rep].value, suffix, items);
      forall h | h in t.asked ensures h < t.nextGen && AskedOk(t.prefix, t.mints, t.asked[h]) {
        if h != g {
          AskedStill(s.prefix, s.mints, t.mints, s.asked[h]);
        }
      }
    }
  }

  lemma RecordsOpen(s: Plane, rep: nat, name: string)
    requires Records(s) && SideMaps(s) && rep !in s.live
    ensures Records(Step(s, ResolveAddresses(rep, name)))
  {
    hide AskedOk;
    FreshRecord(s.prefix, s.mints, name);
  }

  lemma FreshRecord(prefix: Octets8, mints: seq<Mint>, name: string)
    ensures StripSuffix(name).Some? ==> AskedOk(prefix, mints, Asked(name, [], [], None))
  {}

  /** Nothing else touches names, mints or records, though it may drop a drain state. */
  lemma RecordsFrame(s: Plane, e: Event)
    requires Enabled(s, e) && !e.ResolveAddresses? && !e.ResolveNext?
    ensures var t := Step(s, e);
            && t.prefix == s.prefix && t.mints == s.mints && t.asked == s.asked && s.nextGen <= t.nextGen
            && t.resolves == if e.DropResolve? then s.resolves - {e.rep} else s.resolves
  {
    hide JobStep, FinishStep, Step3;
    if JobEvent(e) {
      JobFrame(s, e);
    } else if e.FinishConnect? {
      FinishFrame(s, e);
    } else if Event3(e) {
      Frame3(s, e);
    }
  }

  lemma RecordsStep(s: Plane, e: Event)
    requires Records(s) && SideMaps(s) && Enabled(s, e)
    ensures Records(Step(s, e))
  {
    if e.ResolveAddresses? {
      RecordsOpen(s, e.rep, e.name);
    } else if e.ResolveNext? {
      RecordsCall(s, e.rep, e.suffix, e.items);
    } else {
      RecordsFrame(s, e);
    }
  }

  lemma {:induction false} RecordsRun(s: Plane, es: seq<Event>)
    requires Records(s) && SideMaps(s) && ValidRun(s, es)
    ensures Records(Final(s, es))
    decreases |es|
  {
    if es != [] {
      RecordsStep(s, es[0]);
      SideMapsStep(s, es[0]);
      RecordsRun(Step(s, es[0]), es[1..]);
    }
  }

  /** No later mint drew the suffix of this resolution's handle. */
  predicate Uncontested(s: Plane, a: Asked) {
    a.mint.Some? ==> forall k :: a.mint.value < k < |s.mints| ==> s.mints[k].suffix != s.mints[a.mint.value].suffix
  }

  lemma NewestAtEnd(prefix: Octets8, mints: seq<Mint>)
    requires mints != []
    ensures var m := mints[|mints| - 1]; NewestFor(prefix, mints, HandleAddress(prefix, m.suffix)) == Some(m.entry)
  {}

  lemma HandlesDiffer(prefix: Octets8, a: Octets8, b: Octets8)
    requires a != b
    ensures HandleAddress(prefix, a) != HandleAddress(prefix, b)
  {
    assert HandleAddress(prefix, a)[8..] == a && HandleAddress(prefix, b)[8..] == b;
  }

  lemma LookupMint(prefix: Octets8, mints: seq<Mint>, m: nat)
    requires m < |mints| && forall k :: m < k < |mints| ==> mints[k].suffix != mints[m].suffix
    ensures Lookup(prefix, EntriesAfter(mints), HandleAddress(prefix, mints[m].suffix)) == Some(mints[m].entry)
  {
    hide *;
    var addr := HandleAddress(prefix, mints[m].suffix);
    var later := mints[m + 1..];
    assert mints == mints[..m + 1] + later;
    forall n | n in later ensures HandleAddress(prefix, n.suffix) != addr {
      HandlesDiffer(prefix, n.suffix, mints[m].suffix);
    }
    LookupIsNewest(prefix, mints, addr);
    NewestSkips(prefix, mints[..m + 1], later, addr);
    NewestAtEnd(prefix, mints[..m + 1]);
  }

  /** The whole seam, over every run: whatever else went on, of all the answers an
      opted-in resolution ever got at most one is an address; dialling it, even after the
      resolution is dropped, starts a handshake with the stripped name towards the address
      picked from all those its wrapped stream gave before it ended. */
  lemma OptedInNameIsTunnelled(prefix: Octets8, es: seq<Event>, g: nat, i: nat, rep: nat, port: Port)
    requires ValidRun(Empty(prefix), es)
    requires var s := Final(Empty(prefix), es);
             && g in s.asked && i < |s.asked[g].answers| && s.asked[g].answers[i].Handle?
             && Uncontested(s, s.asked[g]) && IsLive(s, rep, Socket) && rep !in s.tunnels2
    ensures var s := Final(Empty(prefix), es);
            var a := s.asked[g];
            var t := Step(s, StartConnect(rep, SocketAddr(Ipv6(a.answers[i].addr), port), true));
            && (forall j :: 0 <= j < |a.answers| && a.answers[j].Handle? ==> j == i)
            && EndOfAddresses in a.given
            && |t.jobs| == |s.jobs| + 1 && t.tunnels2[rep].value == Connecting(|s.jobs|)
            && t.jobs[|s.jobs|].hostname + SUFFIX == a.name
            && Some(t.jobs[|s.jobs|].dest) == PickAddr(Addresses(a.given), port)
  {
    hide EntriesAfter, Lookup, Addresses;
    RecordsRun(Empty(prefix), es);
    var s := Final(Empty(prefix), es);
    var a := s.asked[g];
    assert AskedOk(s.prefix, s.mints, a);
    LookupMint(s.prefix, s.mints, a.mint.value);
    DialStartsHandshake(s, rep, a.answers[i].addr, port, s.mints[a.mint.value].entry);
  }

  /** And it is answered: the call in which the wrapped stream of an opted-in resolution
      ends, addresses having been given in this call or before, answers the handle under
      the suffix drawn, minted for the stripped name and all of them. */
  lemma OptedInNameIsAnswered(prefix: Octets8, es: seq<Event>, rep: nat, suffix: Octets8, items: seq<Item>, k: nat)
    requires ValidRun(Empty(prefix), es)
    requires var s := Final(Empty(prefix), es);
             && rep in s.resolves && s.resolves[rep].value.Draining? && Enabled(s, ResolveNext(rep, suffix, items))
             && k < |items| && items[k] == EndOfAddresses && (forall i :: 0 <= i < k ==> items[i].Address?)
             && (k > 0 || s.resolves[rep].value.addrs != [])
    ensures var s := Final(Empty(prefix), es);
            var t := Step(s, ResolveNext(rep, suffix, items));
            var g := s.resolves[rep].gen;
            && g in s.asked && g in t.asked && t.asked[g].name == s.asked[g].name
            && t.asked[g].answers == s.asked[g].answers + [Handle(s.prefix + suffix)]
            && t.asked[g].given == s.asked[g].given + items[..k + 1]
            && |t.mints| == |s.mints| + 1
            && t.mints[|s.mints|].entry.hostname + SUFFIX == t.asked[g].name
            && t.mints[|s.mints|].entry.addrs == Addresses(t.asked[g].given)
  {
    hide NextAddress, Addresses, EntriesAfter, Lookup;
    RecordsRun(Empty(prefix), es);
    RecordsRunFrom(prefix, es, ResolveNext(rep, suffix, items));
    var s := Final(Empty(prefix), es);
    var d := s.resolves[rep].value;
    CallAnswers(s.prefix, suffix, d.hostname, d.addrs, items, k);
    var o := NextAddress(s.prefix, suffix, d, items);
    assert Used(items, o) == items[..k + 1];
    CallRecorded(s.prefix, s.mints, s.asked[s.resolves[rep].gen], d, suffix, items);
  }

  lemma RecordsRunFrom(prefix: Octets8, es: seq<Event>, e: Event)
    requires ValidRun(Empty(prefix), es) && Enabled(Final(Empty(prefix), es), e)
    ensures Records(Step(Final(Empty(prefix), es), e))
  {
    RecordsRun(Empty(prefix), es);
    SideMapsRun(Empty(prefix), es);
    RecordsStep(Final(Empty(prefix), es), e);
  }
}
