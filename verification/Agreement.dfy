/** The name index agrees with the registry, exactly as long as two guards hold. */
module Agreement {
  import opened Wire
  import opened Registry
  import opened Codec
  import opened Broker

  /** The name index is the inverse of the non-empty names in the registry. */
  ghost predicate Agrees(r: Registry) {
    && (forall n | n in r.named :: n != "" && r.named[n] in r.infos && r.infos[r.named[n]].name == n)
    && (forall a | a in r.infos && r.infos[a].name != "" ::
          r.infos[a].name in r.named && r.named[r.infos[a].name] == a)
  }

  /** Registry ids are handed out once. */
  ghost predicate IdsDistinct(r: Registry) {
    && (forall a | a in r.infos :: 1 <= r.infos[a].id <= r.idseq)
    && (forall a, b | a in r.infos && b in r.infos && a != b :: r.infos[a].id != r.infos[b].id)
  }

  /** The packet is an auth that registers its sender as an ordinary client. */
  predicate Joins(s: Core, p: Packet) {
    Content(p).Good? && p.from !in s.reg.monitors &&
    var r := Content(p).req;
    r.Auth? && !IsMonitor(r.flags) && AuthResult(s, r) == SUCCESS
  }

  /** The two guards: a monitor that leaves has a name no client holds, and a client
      that is already registered does not register again under another free name. */
  predicate Polite(s: Core, p: Packet) {
    && (p.body.None? && p.from in s.reg.monitors && s.reg.monitors[p.from].name != "" ==>
          s.reg.monitors[p.from].name !in s.reg.named)
    && (Joins(s, p) && p.from in s.reg.infos ==> Content(p).req.extra == "")
  }

  /** The registry after a packet: only departures, registrations and method
      declarations touch it. */
  function RegAfter(s: Core, p: Packet): Registry {
    if p.body.None? then Erase(s.reg, p.from)
    else if p.from in s.reg.monitors || !Content(p).Good? then s.reg
    else match Content(p).req
      case Auth(version, extra, pid, flags) =>
        if AuthResult(s, Content(p).req) != SUCCESS then s.reg
        else if IsMonitor(flags) then AddMonitor(s.reg, p.from, extra, flags)
        else AddAdapter(s.reg, p.from, extra, flags, pid)
      case DeclareMethod(name) =>
        if p.from !in s.reg.infos || name == "" then s.reg
        else SetMethods(s.reg, p.from, s.reg.infos[p.from].methods + {name})
      case RemoveMethod(name) =>
        if p.from !in s.reg.infos || name == "" then s.reg
        else SetMethods(s.reg, p.from, s.reg.infos[p.from].methods - {name})
      case _ => s.reg
  }

  lemma HandleReg(s: Core, p: Packet, now: int)
    ensures Handle(s, p, now).reg == RegAfter(s, p)
  {}

  lemma JoinAgrees(r: Registry, a: Id, name: string, flags: uint32, pid: int)
    requires Agrees(r) && !NameTaken(r, name)
    ensures Agrees(AddAdapter(r, a, name, flags, pid)) <==> (a in r.infos ==> name == "")
  {
    var r' := AddAdapter(r, a, name, flags, pid);
    if a in r.infos && name != "" {
      assert name in r'.named && r'.infos[r'.named[name]].name != name;
    }
  }

  lemma EraseAgrees(r: Registry, a: Id)
    requires Agrees(r)
    ensures Agrees(Erase(r, a)) <==> !(a in r.monitors && r.monitors[a].name != "" && r.monitors[a].name in r.named)
  {}

  lemma MethodsAgree(r: Registry, a: Id, methods: set<string>)
    requires a in r.infos
    ensures Agrees(r) ==> Agrees(SetMethods(r, a, methods))
    ensures IdsDistinct(r) ==> IdsDistinct(SetMethods(r, a, methods))
  {}

  lemma JoinIds(r: Registry, a: Id, name: string, flags: uint32, pid: int)
    requires IdsDistinct(r) && !NameTaken(r, name)
    ensures IdsDistinct(AddAdapter(r, a, name, flags, pid))
  {}

  /** One packet keeps the agreement if and only if it is polite. */
  lemma HandleAgrees(s: Core, p: Packet, now: int)
    requires Agrees(s.reg)
    ensures Agrees(Handle(s, p, now).reg) <==> Polite(s, p)
  {
    HandleReg(s, p, now);
    if p.body.None? {
      EraseAgrees(s.reg, p.from);
    } else if Joins(s, p) {
      var r := Content(p).req;
      JoinAgrees(s.reg, p.from, r.extra, r.flags, r.pid);
    } else {
      MethodsOnly(s, p);
    }
  }

  /** A packet that is neither a departure nor a registration of a client. */
  lemma MethodsOnly(s: Core, p: Packet)
    requires p.body.Some? && !Joins(s, p)
    ensures Agrees(s.reg) ==> Agrees(RegAfter(s, p))
    ensures IdsDistinct(s.reg) ==> IdsDistinct(RegAfter(s, p))
  {
    if p.from in s.reg.infos && Content(p).Good? {
      var methods := s.reg.infos[p.from].methods;
      match Content(p).req
      case DeclareMethod(name) => MethodsAgree(s.reg, p.from, methods + {name});
      case RemoveMethod(name) => MethodsAgree(s.reg, p.from, methods - {name});
      case _ =>
    }
  }

  lemma HandleIds(s: Core, p: Packet)
    requires IdsDistinct(s.reg)
    ensures IdsDistinct(RegAfter(s, p))
  {
    if Joins(s, p) {
      var r := Content(p).req;
      JoinIds(s.reg, p.from, r.extra, r.flags, r.pid);
    } else if p.body.Some? {
      MethodsOnly(s, p);
    }
  }

  // ---- runs ----

  predicate PoliteStep(s: State, e: Event) {
    e.Next? && s.batch != [] ==> Polite(s.core, s.batch[0])
  }

  ghost predicate PoliteRun(s: State, es: seq<Event>) {
    forall i | 0 <= i < |es| :: PoliteStep(Run(s, es[..i]), es[i])
  }

  lemma Shorter(s: State, es: seq<Event>)
    requires es != [] && PoliteRun(s, es)
    ensures PoliteRun(s, es[..|es| - 1]) && PoliteStep(Run(s, es[..|es| - 1]), es[|es| - 1])
  {
    var n := |es| - 1;
    forall i | 0 <= i < n ensures PoliteStep(Run(s, es[..n][..i]), es[..n][i]) {
      assert es[..n][..i] == es[..i];
      assert PoliteStep(Run(s, es[..i]), es[i]);
    }
  }

  lemma StepAgrees(s: State, e: Event)
    requires IdsDistinct(s.core.reg)
    ensures IdsDistinct(Step(s, e).core.reg)
    ensures Agrees(s.core.reg) ==> (Agrees(Step(s, e).core.reg) <==> PoliteStep(s, e))
  {
    if e.Next? && s.batch != [] {
      HandleReg(s.core, s.batch[0], e.now);
      HandleIds(s.core, s.batch[0]);
      if Agrees(s.core.reg) { HandleAgrees(s.core, s.batch[0], e.now); }
    } else {
      assert Step(s, e).core.reg == s.core.reg;
    }
  }

  lemma {:induction false} RunIds(cfg: Config, es: seq<Event>)
    ensures IdsDistinct(Run(Init(cfg), es).core.reg)
  {
    if es != [] {
      RunIds(cfg, es[..|es| - 1]);
      StepAgrees(Run(Init(cfg), es[..|es| - 1]), es[|es| - 1]);
    }
  }

  lemma StepPolite(s: State, e: Event)
    requires IdsDistinct(s.core.reg) && Agrees(s.core.reg) && PoliteStep(s, e)
    ensures Agrees(Step(s, e).core.reg)
  {
    StepAgrees(s, e);
  }

  lemma {:induction false} AgreesSoFar(cfg: Config, es: seq<Event>, i: nat)
    requires i <= |es| && PoliteRun(Init(cfg), es)
    ensures Agrees(Run(Init(cfg), es[..i]).core.reg)
  {
    if i > 0 {
      AgreesSoFar(cfg, es, i - 1);
      RunIds(cfg, es[..i - 1]);
      RunNext(Init(cfg), es, i - 1);
      StepPolite(Run(Init(cfg), es[..i - 1]), es[i - 1]);
    }
  }

  /** Registry ids are always distinct, and index and registry agree throughout a run if
      and only if the run is polite. */
  lemma RunAgrees(cfg: Config, es: seq<Event>)
    ensures IdsDistinct(Run(Init(cfg), es).core.reg)
    ensures (forall i | 0 <= i <= |es| :: Agrees(Run(Init(cfg), es[..i]).core.reg)) <==> PoliteRun(Init(cfg), es)
  {
    RunIds(cfg, es);
    if PoliteRun(Init(cfg), es) {
      forall i | 0 <= i <= |es| ensures Agrees(Run(Init(cfg), es[..i]).core.reg) { AgreesSoFar(cfg, es, i); }
    }
    if forall i | 0 <= i <= |es| :: Agrees(Run(Init(cfg), es[..i]).core.reg) {
      forall i | 0 <= i < |es| ensures PoliteStep(Run(Init(cfg), es[..i]), es[i]) {
        RunIds(cfg, es[..i]);
        StepAgrees(Run(Init(cfg), es[..i]), es[i]);
        RunNext(Init(cfg), es, i);
      }
    }
  }

  /** A bound name stays with its holder until the holder's departure is handled. */
  lemma HolderKeepsName(s: State, e: Event, n: string, a: Id)
    requires Agrees(s.core.reg) && PoliteStep(s, e)
    requires n in s.core.reg.named && s.core.reg.named[n] == a
    requires Packet(a, None) !in Step(s, e).handled
    ensures n in Step(s, e).core.reg.named && Step(s, e).core.reg.named[n] == a
  {
    if e.Next? && s.batch != [] {
      var p := s.batch[0];
      HandleReg(s.core, p, e.now);
      assert Step(s, e).handled[|s.handled|] == p;
      if p.body.None? { OthersLeave(s.core.reg, p.from, n, a); }
    }
  }

  lemma OthersLeave(r: Registry, b: Id, n: string, a: Id)
    requires Agrees(r) && n in r.named && r.named[n] == a && a != b
    requires b in r.monitors && r.monitors[b].name != "" ==> r.monitors[b].name !in r.named
    ensures n in Erase(r, b).named && Erase(r, b).named[n] == a
  {}

  lemma HandledGrows(s: State, e: Event)
    ensures s.handled <= Step(s, e).handled
  {}

  /** So, from any reachable state on, a name passes to another connection only after
      the departure of its holder was handled. */
  lemma {:induction false} Rebinding(s: State, es: seq<Event>, n: string, a: Id)
    requires IdsDistinct(s.core.reg) && Agrees(s.core.reg) && PoliteRun(s, es)
    requires n in s.core.reg.named && s.core.reg.named[n] == a
    requires Packet(a, None) !in Run(s, es).handled
    ensures IdsDistinct(Run(s, es).core.reg) && Agrees(Run(s, es).core.reg)
    ensures n in Run(s, es).core.reg.named && Run(s, es).core.reg.named[n] == a
  {
    if es != [] {
      var s', e := Run(s, es[..|es| - 1]), es[|es| - 1];
      Shorter(s, es);
      HandledGrows(s', e);
      Rebinding(s, es[..|es| - 1], n, a);
      StepAgrees(s', e);
      HolderKeepsName(s', e, n, a);
    }
  }

  // ---- both failures happen ----

  function AuthPacket(a: Id, name: string, flags: uint32): Packet {
    Packet(a, Some(EncodeRequest(Auth(FLORA_VERSION, name, 0, flags))))
  }

  lemma AuthReg(s: Core, a: Id, name: string, flags: uint32)
    requires a !in s.reg.monitors && if IsMonitor(flags) then s.cfg.monitorMode else !NameTaken(s.reg, name)
    ensures RegAfter(s, AuthPacket(a, name, flags)) ==
            if IsMonitor(flags) then AddMonitor(s.reg, a, name, flags) else AddAdapter(s.reg, a, name, flags, 0)
  {
    RequestRoundTrip(Auth(FLORA_VERSION, name, 0, flags), []);
    assert EncodeRequest(Auth(FLORA_VERSION, name, 0, flags)) + [] == EncodeRequest(Auth(FLORA_VERSION, name, 0, flags));
  }

  /** The next packet of the batch. */
  lemma NextReg(s: State, now: int)
    requires s.batch != []
    ensures var s' := Step(s, Next(now));
            && s'.core.reg == RegAfter(s.core, s.batch[0]) && s'.core.cfg == s.core.cfg
            && s'.batch == s.batch[1..] && s'.queue == s.queue && s'.adapters == s.adapters
  {
    HandleReg(s.core, s.batch[0], now);
  }

  lemma {:induction false} RunOn(s: State, es: seq<Event>, more: seq<Event>)
    ensures Run(s, es + more) == Run(Run(s, es), more)
    decreases |more|
  {
    if more == [] {
      assert es + more == es;
    } else {
      var n := |more| - 1;
      RunOn(s, es, more[..n]);
      assert (es + more)[..|es| + n] == es + more[..n];
    }
  }

  /** Two connections send a packet each, or one of them both. */
  function TwoPackets(p: Packet, q: Packet): seq<Event>
    requires p.body.Some? && q.body.Some?
  {
    [Accept(1, false, 0, 9), Accept(2, false, 0, 9)] + [Put(p.from, p.body.value), Put(q.from, q.body.value), Tick(0)]
  }

  lemma TwoAccepted(s: State)
    requires 1 !in s.core.peers && 2 !in s.core.peers
    ensures var s' := Run(s, [Accept(1, false, 0, 9), Accept(2, false, 0, 9)]);
            && s'.core == s.core.(peers := s'.core.peers) && s'.adapters == s.adapters + {1, 2}
            && s'.batch == s.batch && s'.queue == s.queue
  {
    var es := [Accept(1, false, 0, 9), Accept(2, false, 0, 9)];
    RunNext(s, es, 0);
    RunNext(s, es, 1);
    assert es[..2] == es;
  }

  lemma TwoFetched(s: State, p: Packet, q: Packet)
    requires p.body.Some? && q.body.Some? && p.from in s.adapters && q.from in s.adapters && s.batch == [] && s.queue == []
    ensures var s' := Run(s, [Put(p.from, p.body.value), Put(q.from, q.body.value), Tick(0)]);
            s'.core == s.core && s'.adapters == s.adapters && s'.batch == [p, q] && s'.queue == []
  {
    var es := [Put(p.from, p.body.value), Put(q.from, q.body.value), Tick(0)];
    RunNext(s, es, 0);
    RunNext(s, es, 1);
    RunNext(s, es, 2);
    assert es[..3] == es;
  }

  lemma TwoPacketsFetched(cfg: Config, p: Packet, q: Packet)
    requires p.body.Some? && q.body.Some? && p.from in {1, 2} && q.from in {1, 2}
    ensures var s := Run(Init(cfg), TwoPackets(p, q));
            && s.core.reg == Init(cfg).core.reg && s.core.cfg == cfg
            && s.batch == [p, q] && s.queue == [] && s.adapters == {1, 2}
  {
    var es := [Accept(1, false, 0, 9), Accept(2, false, 0, 9)];
    TwoAccepted(Init(cfg));
    TwoFetched(Run(Init(cfg), es), p, q);
    RunOn(Init(cfg), es, [Put(p.from, p.body.value), Put(q.from, q.body.value), Tick(0)]);
  }

  /** A client and, under the same name, a monitor join; then the monitor leaves: its
      departure takes the client's name out of the index. */
  lemma MonitorTakesNameAway(cfg: Config, name: string)
    requires cfg.monitorMode && name != ""
    ensures var es := TwoPackets(AuthPacket(1, name, 0), AuthPacket(2, name, 1)) + [Next(0), Next(0)] + [Delete(2), Tick(0), Next(0)];
            var r := Run(Init(cfg), es).core.reg;
            1 in r.infos && r.infos[1].name == name && name !in r.named && !Agrees(r)
  {
    var p, q := AuthPacket(1, name, 0), AuthPacket(2, name, 1);
    var es := TwoPackets(p, q);
    var s := Run(Init(cfg), es);
    TwoPacketsFetched(cfg, p, q);
    RunOn(Init(cfg), es, [Next(0), Next(0)]);
    TwoHandled(s, p, q);
    AuthReg(s.core, 1, name, 0);
    AuthReg(Step(s, Next(0)).core, 2, name, 1);
    var t := Run(s, [Next(0), Next(0)]);
    RunOn(Init(cfg), es + [Next(0), Next(0)], [Delete(2), Tick(0), Next(0)]);
    DepartureHandled(t, 2);
  }

  lemma TwoHandled(s: State, p: Packet, q: Packet)
    requires s.batch == [p, q] && s.queue == []
    ensures var t := Run(s, [Next(0), Next(0)]); var s1 := Step(s, Next(0));
            && t.core.reg == RegAfter(s1.core, q) && s1.core.reg == RegAfter(s.core, p) && s1.core.cfg == s.core.cfg
            && t.batch == [] && t.queue == [] && t.adapters == s.adapters
  {
    var es: seq<Event> := [Next(0), Next(0)];
    RunNext(s, es, 0);
    RunNext(s, es, 1);
    assert es[..2] == es;
    NextReg(s, 0);
    NextReg(Step(s, Next(0)), 0);
  }

  lemma DepartureHandled(s: State, a: Id)
    requires s.batch == [] && s.queue == [] && a in s.adapters && Lookup(s.core.reg, a).Some?
    ensures Run(s, [Delete(a), Tick(0), Next(0)]).core.reg == Erase(s.core.reg, a)
  {
    var es: seq<Event> := [Delete(a), Tick(0), Next(0)];
    RunNext(s, es, 0);
    RunNext(s, es, 1);
    RunNext(s, es, 2);
    assert es[..3] == es;
    var s2 := Run(s, es[..2]);
    assert s2.batch == [Packet(a, None)] && s2.core.reg == s.core.reg;
    NextReg(s2, 0);
  }

  /** A client passes a second auth under another free name: that name is bound to a
      connection that stays registered under the first. */
  lemma SecondNameIsBound(cfg: Config, name: string, other: string)
    requires name != other && other != ""
    ensures var es := TwoPackets(AuthPacket(1, name, 0), AuthPacket(1, other, 0)) + [Next(0), Next(0)];
            var r := Run(Init(cfg), es).core.reg;
            other in r.named && r.named[other] == 1 && 1 in r.infos && r.infos[1].name == name && !Agrees(r)
  {
    var p, q := AuthPacket(1, name, 0), AuthPacket(1, other, 0);
    var s := Run(Init(cfg), TwoPackets(p, q));
    TwoPacketsFetched(cfg, p, q);
    RunOn(Init(cfg), TwoPackets(p, q), [Next(0), Next(0)]);
    TwoHandled(s, p, q);
    AuthReg(s.core, 1, name, 0);
    AuthReg(Step(s, Next(0)).core, 1, other, 0);
  }
}
