/** The downlink: every frame that was ever written to a connection is read back as
    itself by the client's parsers, as long as the registry's counter has not wrapped. */
module Links {
  import opened Wire
  import opened Codec
  import opened Peers
  import opened Registry
  import opened Calls
  import opened Broker
  import opened Quiet
  import Agreement
  import Causality

  /** The numbers in a list message do not exceed n. */
  predicate InBounds(f: Frame, n: nat) {
    match f
    case MonitorAll(items) => |items| <= n && forall i | 0 <= i < |items| :: 0 <= items[i].id <= n
    case MonitorAdd(item) => 0 <= item.id <= n
    case MonitorRemove(id) => 0 <= id <= n
    case _ => true
  }

  function Beyond(n: nat): Kind { (f: Frame) => !InBounds(f, n) }

  ghost predicate LogsInBounds(ps: PeerMap, n: nat) {
    forall a | a in ps :: Select(ps[a].sent, Beyond(n)) == []
  }

  /** The counter bounds the registry: its size and all ids. */
  ghost predicate Counted(r: Registry) {
    && |r.infos| <= r.idseq
    && (forall a | a in r.infos :: r.infos[a].id <= r.idseq)
    && (forall a | a in r.monitors :: r.monitors[a].id <= r.idseq)
  }

  lemma {:induction false} SelectNone(sent: seq<Sent>, kind: Kind)
    ensures Select(sent, kind) == [] <==> forall i | 0 <= i < |sent| :: !kind(sent[i].frame)
  {
    if sent != [] {
      var n := |sent| - 1;
      SelectNone(sent[..n], kind);
      assert forall i | 0 <= i < n :: sent[..n][i] == sent[i];
    }
  }

  lemma BoundsGrow(ps: PeerMap, n: nat, m: nat)
    requires LogsInBounds(ps, n) && n <= m
    ensures LogsInBounds(ps, m)
  {
    forall a | a in ps ensures Select(ps[a].sent, Beyond(m)) == [] {
      SelectNone(ps[a].sent, Beyond(n));
      SelectNone(ps[a].sent, Beyond(m));
      forall i | 0 <= i < |ps[a].sent| ensures InBounds(ps[a].sent[i].frame, m) {
        assert !Beyond(n)(ps[a].sent[i].frame);
      }
    }
  }

  lemma {:induction false} ItemsCounted(infos: map<Id, Info>, n: nat)
    requires forall a | a in infos :: infos[a].id <= n
    ensures |Items(infos)| == |infos| && forall i | 0 <= i < |Items(infos)| :: 0 <= Items(infos)[i].id <= n
    decreases infos.Keys
  {
    if infos != map[] {
      var k := Least(infos.Keys);
      ItemsCounted(infos - {k}, n);
      assert infos.Keys == (infos - {k}).Keys + {k};
    }
  }

  lemma HandleCounted(s: Core, p: Packet, now: int)
    requires Counted(s.reg)
    ensures Counted(Handle(s, p, now).reg) && s.reg.idseq <= Handle(s, p, now).reg.idseq
  {
    Agreement.HandleReg(s, p, now);
    RegCounted(s, p);
  }

  lemma RegCounted(s: Core, p: Packet)
    requires Counted(s.reg)
    ensures Counted(Agreement.RegAfter(s, p)) && s.reg.idseq <= Agreement.RegAfter(s, p).idseq
  {
    if p.body.None? {
      EraseCounted(s.reg, p.from);
    } else if p.from !in s.reg.monitors && Content(p).Good? {
      var r := Content(p).req;
      if r.Auth? && AuthResult(s, r) == SUCCESS {
        if !IsMonitor(r.flags) { JoinCounted(s.reg, p.from, r.extra, r.flags, r.pid); }
      } else if p.from in s.reg.infos {
        var methods := s.reg.infos[p.from].methods;
        match r
        case DeclareMethod(name) => MethodsCounted(s.reg, p.from, methods + {name});
        case RemoveMethod(name) => MethodsCounted(s.reg, p.from, methods - {name});
        case _ =>
      }
    }
  }

  lemma EraseCounted(r: Registry, a: Id)
    requires Counted(r)
    ensures Counted(Erase(r, a)) && Erase(r, a).idseq == r.idseq
  {
    if a in r.infos { assert r.infos.Keys == (r.infos - {a}).Keys + {a}; }
  }

  lemma JoinCounted(r: Registry, a: Id, name: string, flags: uint32, pid: int)
    requires Counted(r) && !NameTaken(r, name)
    ensures Counted(AddAdapter(r, a, name, flags, pid))
  {
    if a !in r.infos { OneMore(r.infos, a, Info(r.idseq + 1, pid, name, {}, flags)); }
  }

  lemma OneMore(infos: map<Id, Info>, a: Id, i: Info)
    requires a !in infos
    ensures |infos[a := i]| == |infos| + 1
  {
    assert infos[a := i].Keys == infos.Keys + {a};
  }

  lemma MethodsCounted(r: Registry, a: Id, methods: set<string>)
    requires Counted(r) && a in r.infos
    ensures Counted(SetMethods(r, a, methods))
  {
    assert SetMethods(r, a, methods).infos.Keys == r.infos.Keys;
  }

  lemma StillInBounds(ps: PeerMap, qs: PeerMap, n: nat)
    requires LogsInBounds(ps, n) && Still(ps, qs, Beyond(n))
    ensures LogsInBounds(qs, n)
  {}

  lemma AnnounceInBounds(s: Core, a: Id, flags: uint32)
    requires Counted(s.reg)
    ensures Still(s.peers, Announce(s, a, flags).peers, Beyond(s.reg.idseq))
  {
    var n := s.reg.idseq;
    if IsMonitor(flags) {
      ItemsCounted(s.reg.infos, n);
      SendStill(s.peers, a, s.step, MonitorAll(Items(s.reg.infos)), Beyond(n));
    } else if Lookup(s.reg, a).Some? {
      var f := MonitorAdd(ToItem(Lookup(s.reg, a).value));
      BroadcastStill(s.peers, s.reg.monitors.Keys, s.step, f, s.cfg.fits, Beyond(n));
    }
  }

  lemma AuthInBounds(s: Core, a: Id, r: Request, n: nat)
    requires r.Auth? && Counted(Enroll(s, a, r).reg) && n == Enroll(s, a, r).reg.idseq
    ensures Still(s.peers, HandleAuth(s, a, r).core.peers, Beyond(n))
  {
    var s1, f := Enroll(s, a, r), AuthResp(AuthResult(s, r), FLORA_VERSION);
    var s2 := SendTo(s1, a, f);
    EnrollStill(s, a, r, Beyond(n));
    SendStill(s1.peers, a, s.step, f, Beyond(n));
    StillTwice(s.peers, s1.peers, s2.peers, Beyond(n));
    AnnounceInBounds(s2, a, r.flags);
    StillTwice(s.peers, s2.peers, Announce(s2, a, r.flags).peers, Beyond(n));
  }

  lemma EraseInBounds(s: Core, a: Id, now: int)
    requires Counted(s.reg)
    ensures Still(s.peers, DoErase(s, a, now).peers, Beyond(s.reg.idseq))
  {
    if Lookup(s.reg, a).Some? {
      var f := MonitorRemove(Lookup(s.reg, a).value.id);
      BroadcastStill(s.peers, s.reg.monitors.Keys, s.step, f, s.cfg.fits, Beyond(s.reg.idseq));
    }
  }

  lemma HandleBeyond(s: Core, p: Packet, now: int, n: nat)
    requires Counted(s.reg) && Counted(Handle(s, p, now).reg) && n == Handle(s, p, now).reg.idseq
    ensures Still(s.peers, Handle(s, p, now).peers, Beyond(n))
  {
    if p.body.None? {
      EraseInBounds(s, p.from, now);
    } else if !IsAuth(p) {
      HandleStill(s, p, now, Beyond(n));
    } else if p.from in s.reg.monitors {
      ShutStill(s.peers, s.peers, p.from, Beyond(n));
    } else {
      var o := HandleAuth(s, p.from, Content(p).req);
      AuthHandled(s, p, now);
      AuthEnrolls(s, p.from, Content(p).req);
      AuthInBounds(s, p.from, Content(p).req, n);
      ShutStill(s.peers, o.core.peers, p.from, Beyond(n));
    }
  }

  ghost predicate Bounded(s: Core) { Counted(s.reg) && LogsInBounds(s.peers, s.reg.idseq) }

  lemma HandleBounded(s: Core, p: Packet, now: int)
    requires Bounded(s)
    ensures Bounded(Handle(s, p, now))
  {
    var n := Handle(s, p, now).reg.idseq;
    HandleCounted(s, p, now);
    HandleBeyond(s, p, now, n);
    BoundsGrow(s.peers, s.reg.idseq, n);
    StillInBounds(s.peers, Handle(s, p, now).peers, n);
  }

  lemma StepBounded(s: State, e: Event)
    requires Bounded(s.core)
    ensures Bounded(Step(s, e).core)
  {
    var n := s.core.reg.idseq;
    match e
    case Next(now) => if s.batch != [] { HandleBounded(s.core, s.batch[0], now); }
    case Tick(now) =>
      var k := Overdue(s.core.calls, now);
      TimeOutStill(s.core.peers, s.core.calls, s.core.step, k, Beyond(n));
      StillInBounds(s.core.peers, TimeOut(s.core.peers, s.core.calls, s.core.step, k), n);
    case _ =>
      forall a | a in Step(s, e).core.peers ensures Select(Step(s, e).core.peers[a].sent, Beyond(n)) == [] {
        NothingWritten(s, e, a);
      }
      assert Step(s, e).core.reg == s.core.reg;
  }

  lemma {:induction false} RunBounded(cfg: Config, es: seq<Event>)
    ensures Bounded(Run(Init(cfg), es).core)
  {
    if es != [] {
      RunBounded(cfg, es[..|es| - 1]);
      StepBounded(Run(Init(cfg), es[..|es| - 1]), es[|es| - 1]);
    }
  }

  /** In every run every frame in every log is well-formed and is read back as itself by the
      parsers of the client; a list message as long as the registry's counter is below
      2^32. */
  lemma WrittenIsRead(cfg: Config, es: seq<Event>, a: Id, i: nat)
    requires var ps := Run(Init(cfg), es).core.peers; a in ps && i < |ps[a].sent|
    ensures var s := Run(Init(cfg), es).core; var f := s.peers[a].sent[i].frame;
            WellFormed(f) && ((IsList()(f) ==> s.reg.idseq < TWO32) ==> ParseFrame(EncodeFrame(f)) == Some(f))
  {
    var s := Run(Init(cfg), es);
    var x := s.core.peers[a].sent[i];
    Causality.RunExplained(cfg, es);
    assert Causality.Cause(s.handled, s.core.forwards, a, x);
    RunBounded(cfg, es);
    SelectNone(s.core.peers[a].sent, Beyond(s.core.reg.idseq));
    assert !Beyond(s.core.reg.idseq)(x.frame);
    if IsList()(x.frame) ==> s.core.reg.idseq < TWO32 { FrameRoundTrip(x.frame); }
  }
}
