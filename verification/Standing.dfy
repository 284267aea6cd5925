/** What clients ask for stands: over every run, subscriptions, methods and forwarded
    calls are what the handled packets make them. */
module Standing {
  import opened Wire
  import opened Peers
  import opened Topics
  import opened Registry
  import opened Calls
  import opened Broker
  import opened Quiet
  import opened Subscriptions
  import opened Effects
  import Agreement
  import Causality
  import Conservation
  import Gate
  import Links
  import Replica

  /** The event handles this request of this registered client. */
  predicate Serves(s: State, e: Event, a: Id, r: Request) {
    e.Next? && s.batch != [] && s.batch[0].from == a && IsClient(s.core, a) && Requests(s.batch[0], r)
  }

  // ---- subscriptions ----

  /** The last word of a client on a topic was a subscription. */
  predicate Wants(cfg: Config, es: seq<Event>, a: Id, name: string) {
    es != [] &&
    var n := |es| - 1;
    var s := Run(Init(cfg), es[..n]);
    Serves(s, es[n], a, Subscribe(name)) || (!Serves(s, es[n], a, Unsubscribe(name)) && Wants(cfg, es[..n], a, name))
  }

  /** An open connection is on the list of a topic exactly if it wants to be. */
  predicate Listed(s: Core, a: Id, name: string, wants: bool) {
    if a in s.peers then s.peers[a].open ==> (a in Subscribers(s.topics, name) <==> wants)
    else a !in Subscribers(s.topics, name) && !wants
  }

  predicate Says(s: Core, p: Packet, a: Id, r: Request) { p.from == a && IsClient(s, a) && Requests(p, r) }

  lemma TopicsListed(s: Core, p: Packet, now: int, a: Id, name: string)
    requires IsOpen(s.peers, a) && GoneClosed(s.peers) && name != ""
    ensures a in Subscribers(TopicsAfter(s, p, now), name)
            <==> Says(s, p, a, Subscribe(name)) || (!Says(s, p, a, Unsubscribe(name)) && a in Subscribers(s.topics, name))
  {
    if p.body.None? {
      SweepExact(s.topics, LiveSet(s.peers), name);
      KeepIn(Subscribers(s.topics, name), LiveSet(s.peers), a);
    } else if p.from !in s.reg.monitors && p.from in s.reg.infos && Content(p).Good? {
      match Content(p).req
      case Subscribe(n) => AddExact(s.topics, p.from, n, name, a);
      case Unsubscribe(n) => PruneExact(s.topics, n, LiveSet(s.peers) - {p.from}, name, a);
      case Post(_, n, _) => PruneExact(s.topics, n, LiveSet(s.peers) * OpenSet(s.peers), name, a);
      case _ =>
    }
  }

  lemma NamelessCloses(s: Core, p: Packet, now: int, r: Request)
    requires Says(s, p, p.from, r) && (r == Subscribe("") || r == Unsubscribe(""))
    ensures Closed(s.peers, Handle(s, p, now).peers, p.from)
  {
    Handled(s, p, now, r);
    ShutCloses(s.peers, p.from);
  }

  lemma HandleListed(s: Core, p: Packet, now: int, a: Id, name: string, wants: bool)
    requires Listed(s, a, name, wants) && GoneClosed(s.peers) && p.from in s.peers
    requires name == "" ==> a !in Subscribers(s.topics, name)
    ensures Listed(Handle(s, p, now), a, name, Says(s, p, a, Subscribe(name)) || (!Says(s, p, a, Unsubscribe(name)) && wants))
  {
    HandleStill(s, p, now, (f: Frame) => false);
    HandleTopics(s, p, now);
    if name == "" {
      NamelessListed(s, p, now, a, wants);
    } else if IsOpen(s.peers, a) {
      TopicsListed(s, p, now, a, name);
    } else if a !in s.peers && a in Subscribers(TopicsAfter(s, p, now), name) {
      Members(s, p, now, name, a);
    }
  }

  lemma NamelessListed(s: Core, p: Packet, now: int, a: Id, wants: bool)
    requires Listed(s, a, "", wants) && p.from in s.peers && a !in Subscribers(s.topics, "")
    ensures Listed(Handle(s, p, now), a, "", Says(s, p, a, Subscribe("")) || (!Says(s, p, a, Unsubscribe("")) && wants))
  {
    HandleStill(s, p, now, (f: Frame) => false);
    HandleTopics(s, p, now);
    if a in Subscribers(TopicsAfter(s, p, now), "") { NobodyJoins(s, p, now, a); }
    if Says(s, p, a, Subscribe("")) { NamelessCloses(s, p, now, Subscribe("")); }
  }

  lemma NobodyJoins(s: Core, p: Packet, now: int, a: Id)
    requires a !in Subscribers(s.topics, "")
    ensures a !in Subscribers(TopicsAfter(s, p, now), "")
  {
    if a in Subscribers(TopicsAfter(s, p, now), "") { Members(s, p, now, "", a); }
  }

  lemma StepListed(s: State, e: Event, a: Id, name: string, wants: bool)
    requires Listed(s.core, a, name, wants) && Conservation.Known(s) && Tidy(s.core.topics.subs)
    ensures Listed(Step(s, e).core, a, name, Serves(s, e, a, Subscribe(name)) || (!Serves(s, e, a, Unsubscribe(name)) && wants))
  {
    match e
    case Next(now) => if s.batch != [] { HandleListed(s.core, s.batch[0], now, a, name, wants); }
    case Tick(now) =>
      TimeOutStill(s.core.peers, s.core.calls, s.core.step, Overdue(s.core.calls, now), (f: Frame) => false);
    case _ => if a in Step(s, e).core.peers { NothingWritten(s, e, a); }
  }

  /** In every run: an open connection is on the list of a topic if and only if its last
      handled word on it, as a registered client, was a subscription; whatever purges and
      sweeps there were. */
  lemma {:induction false} RunListed(cfg: Config, es: seq<Event>, a: Id, name: string)
    ensures Listed(Run(Init(cfg), es).core, a, name, Wants(cfg, es, a, name))
  {
    if es != [] {
      var n := |es| - 1;
      RunListed(cfg, es[..n], a, name);
      Conservation.RunBalance(cfg, es[..n]);
      RunTidy(cfg, es[..n]);
      StepListed(Run(Init(cfg), es[..n]), es[n], a, name, Wants(cfg, es[..n], a, name));
    }
  }

  /** So in every run a valid post of a client that fits reaches exactly the open
      connections that want its topic. */
  lemma PostReachesWanting(cfg: Config, es: seq<Event>, p: Packet, now: int, r: Request, x: Id)
    requires var s := Run(Init(cfg), es).core;
             && IsClient(s, p.from) && r.Post? && Requests(p, r) && r.msgtype < 2 && r.name != "" && IsOpen(s.peers, x)
             && s.peers[x].room > 0
             && s.cfg.fits(PostResp(r.msgtype, r.name, r.args, s.peers[p.from].tag, s.reg.infos[p.from].name), s.peers[x].net)
    ensures var s, s' := Run(Init(cfg), es).core, Handle(Run(Init(cfg), es).core, p, now);
            var f := PostResp(r.msgtype, r.name, r.args, s.peers[p.from].tag, s.reg.infos[p.from].name);
            && x in s'.peers
            && s'.peers[x].sent == s.peers[x].sent + if Wants(cfg, es, x, r.name) then [Sent(s.step, s.peers[x].net, f)] else []
  {
    RunListed(cfg, es, x, r.name);
    PostReaches(Run(Init(cfg), es).core, p, now, r, x);
  }

  // ---- methods ----

  /** The event registers a connection as a new client. */
  predicate Registers(s: State, e: Event, a: Id) {
    e.Next? && s.batch != [] && s.batch[0].from == a && a !in s.core.reg.infos && Agreement.Joins(s.core, s.batch[0])
  }

  /** The last word of a client on a method since its registration was a declaration. */
  predicate Declared(cfg: Config, es: seq<Event>, a: Id, m: string) {
    es != [] && m != "" &&
    var n := |es| - 1;
    var s := Run(Init(cfg), es[..n]);
    || Serves(s, es[n], a, DeclareMethod(m))
    || (!Serves(s, es[n], a, RemoveMethod(m)) && !Registers(s, es[n], a) && Declared(cfg, es[..n], a, m))
  }

  lemma RegistryMethods(s: Core, p: Packet, a: Id, m: string)
    requires p.from in s.peers && a in Agreement.RegAfter(s, p).infos && m != ""
    ensures var has := a in s.reg.infos && m in s.reg.infos[a].methods;
            m in Agreement.RegAfter(s, p).infos[a].methods
            <==> Says(s, p, a, DeclareMethod(m)) || (!Says(s, p, a, RemoveMethod(m)) && has)
    ensures a !in s.reg.infos ==> p.from == a && Agreement.Joins(s, p)
  {}

  lemma HandleMethods(s: Core, p: Packet, now: int, a: Id, m: string)
    requires p.from in s.peers && a in Handle(s, p, now).reg.infos && m != ""
    ensures var has := a in s.reg.infos && m in s.reg.infos[a].methods;
            m in Handle(s, p, now).reg.infos[a].methods
            <==> Says(s, p, a, DeclareMethod(m)) || (!Says(s, p, a, RemoveMethod(m)) && has)
    ensures a !in s.reg.infos ==> p.from == a && Agreement.Joins(s, p)
  {
    Agreement.HandleReg(s, p, now);
    RegistryMethods(s, p, a, m);
  }

  lemma StepMethods(s: State, e: Event, a: Id, m: string, declared: bool)
    requires a in Step(s, e).core.reg.infos && m != "" && Conservation.Known(s)
    requires a in s.core.reg.infos ==> (m in s.core.reg.infos[a].methods <==> declared)
    ensures m in Step(s, e).core.reg.infos[a].methods
            <==> Serves(s, e, a, DeclareMethod(m)) || (!Serves(s, e, a, RemoveMethod(m)) && !Registers(s, e, a) && declared)
  {
    if e.Next? && s.batch != [] {
      HandleMethods(s.core, s.batch[0], e.now, a, m);
    } else {
      assert Step(s, e).core.reg == s.core.reg;
    }
  }

  /** No client has a method without a name. */
  ghost predicate MethodsNamed(r: Registry) { forall a | a in r.infos :: "" !in r.infos[a].methods }

  lemma StepNamed(s: State, e: Event)
    requires MethodsNamed(s.core.reg)
    ensures MethodsNamed(Step(s, e).core.reg)
  {
    if e.Next? && s.batch != [] {
      Agreement.HandleReg(s.core, s.batch[0], e.now);
    } else {
      assert Step(s, e).core.reg == s.core.reg;
    }
  }

  /** In every run: a registered client has a method if and only if its last handled word on
      it since its registration was a declaration. */
  lemma {:induction false} RunMethods(cfg: Config, es: seq<Event>, a: Id, m: string)
    requires a in Run(Init(cfg), es).core.reg.infos
    ensures m in Run(Init(cfg), es).core.reg.infos[a].methods <==> Declared(cfg, es, a, m)
  {
    if m == "" {
      RunNamed(cfg, es);
    } else {
      var n := |es| - 1;
      var s := Run(Init(cfg), es[..n]);
      Conservation.RunBalance(cfg, es[..n]);
      if a in s.core.reg.infos { RunMethods(cfg, es[..n], a, m); }
      StepMethods(s, es[n], a, m, Declared(cfg, es[..n], a, m));
    }
  }

  lemma {:induction false} RunNamed(cfg: Config, es: seq<Event>)
    ensures MethodsNamed(Run(Init(cfg), es).core.reg)
  {
    if es != [] {
      RunNamed(cfg, es[..|es| - 1]);
      StepNamed(Run(Init(cfg), es[..|es| - 1]), es[|es| - 1]);
    }
  }

  // ---- forwarded calls ----

  /** A log holds the call with server id v, written while packet number at was handled. */
  predicate Holds(sent: seq<Sent>, at: nat, v: nat) {
    exists j :: 0 <= j < |sent| && sent[j].at == at && sent[j].frame.CallResp? && sent[j].frame.svrid == v
  }

  /** The frame of a forwarded call does not fit in the byte order of its target, under some
      tag and name of the caller. */
  ghost predicate Misfit(cfg: Config, h: seq<Packet>, f: Forward, v: nat, net: bool) {
    var r := Causality.RequestOf(h, f.at);
    r.Some? && r.value.Call? && exists tag, name :: !cfg.fits(CallResp(v, r.value.name, r.value.args, tag, name), net)
  }

  /** A forwarded call is in the log of its target, unless the target is closed, or the
      frame did not fit, for which the caller was closed. */
  ghost predicate Reached(s: Core, h: seq<Packet>, f: Forward, v: nat) {
    && f.target in s.peers && f.caller in s.peers
    && (Holds(s.peers[f.target].sent, f.at, v) || !s.peers[f.target].open
        || (!s.peers[f.caller].open && Misfit(s.cfg, h, f, v, s.peers[f.target].net)))
  }

  ghost predicate AllReached(s: Core, h: seq<Packet>) {
    && (forall n | n in s.reg.named :: s.reg.named[n] in s.peers)
    && (forall i | 0 <= i < |s.forwards| :: Reached(s, h, s.forwards[i], i + 1))
  }

  /** Between ps and qs logs grew and adapters closed. */
  ghost predicate Grew(ps: PeerMap, qs: PeerMap) {
    && ps.Keys <= qs.Keys
    && (forall a | a in ps :: ps[a].sent <= qs[a].sent && (qs[a].open ==> ps[a].open) && qs[a].net == ps[a].net)
  }

  lemma ReachedStays(s: Core, h: seq<Packet>, s': Core, h': seq<Packet>, f: Forward, v: nat)
    requires Reached(s, h, f, v) && Grew(s.peers, s'.peers) && s'.cfg == s.cfg && h <= h'
    ensures Reached(s', h', f, v)
  {
    var sent, sent' := s.peers[f.target].sent, s'.peers[f.target].sent;
    if Holds(sent, f.at, v) {
      var j :| 0 <= j < |sent| && sent[j].at == f.at && sent[j].frame.CallResp? && sent[j].frame.svrid == v;
      assert sent'[j] == sent[j];
    } else if s.peers[f.target].open {
      assert Causality.RequestOf(h', f.at) == Causality.RequestOf(h, f.at);
    }
  }

  /** The call that a packet forwards. */
  lemma CallIsReached(s: Core, h: seq<Packet>, p: Packet, now: int, r: Request)
    requires IsClient(s, p.from) && r.Call? && Requests(p, r) && Callable(s.reg, r.target, r.name)
    requires s.reg.named[r.target] in s.peers && s.step == |h|
    ensures Reached(Handle(s, p, now), h + [p], Forward(s.step, p.from, r.cliid, s.reg.named[r.target]), |s.forwards| + 1)
  {
    var s', t, v := Handle(s, p, now), s.reg.named[r.target], |s.forwards| + 1;
    var f := CallResp(v, r.name, r.args, s.peers[p.from].tag, s.reg.infos[p.from].name);
    CallReaches(s, p, now, r);
    assert Causality.RequestOf(h + [p], s.step) == Some(r);
    if s.cfg.fits(f, s.peers[t].net) {
      if s.peers[t].open && s.peers[t].room > 0 {
        assert s'.peers[t].sent[|s.peers[t].sent|] == Sent(s.step, s.peers[t].net, f);
      }
    } else {
      assert s'.cfg == s.cfg;
    }
  }

  lemma HandleReached(s: Core, h: seq<Packet>, p: Packet, now: int)
    requires AllReached(s, h) && s.step == |h| && p.from in s.peers
    ensures AllReached(Handle(s, p, now), h + [p])
  {
    var s' := Handle(s, p, now);
    NamesKnown(s, p, now);
    HandleGrew(s, p, now);
    ForwardsAfter(s, p, now);
    forall i | 0 <= i < |s.forwards| ensures Reached(s', h + [p], s.forwards[i], i + 1) {
      ReachedStays(s, h, s', h + [p], s.forwards[i], i + 1);
    }
    if |s'.forwards| > |s.forwards| { CallIsReached(s, h, p, now, Content(p).req); }
  }

  lemma HandleGrew(s: Core, p: Packet, now: int)
    ensures Grew(s.peers, Handle(s, p, now).peers) && Handle(s, p, now).cfg == s.cfg
  {
    HandleStill(s, p, now, (f: Frame) => false);
  }

  lemma NamesKnown(s: Core, p: Packet, now: int)
    requires (forall n | n in s.reg.named :: s.reg.named[n] in s.peers) && p.from in s.peers
    ensures var s' := Handle(s, p, now); forall n | n in s'.reg.named :: s'.reg.named[n] in s'.peers
  {
    HandleGrew(s, p, now);
    Agreement.HandleReg(s, p, now);
    NamesFrom(s, p);
  }

  lemma NamesFrom(s: Core, p: Packet)
    ensures var r := Agreement.RegAfter(s, p);
            forall n | n in r.named :: (n in s.reg.named && r.named[n] == s.reg.named[n]) || r.named[n] == p.from
  {}

  /** A packet forwards a call, or none. */
  lemma ForwardsAfter(s: Core, p: Packet, now: int)
    requires p.from in s.peers
    ensures var s' := Handle(s, p, now);
            if IsClient(s, p.from) && Content(p).Good? && Content(p).req.Call?
               && Callable(s.reg, Content(p).req.target, Content(p).req.name)
            then s'.forwards == s.forwards + [Forward(s.step, p.from, Content(p).req.cliid, s.reg.named[Content(p).req.target])]
            else s'.forwards == s.forwards
  {
    if !CallOrReply(p) {
      OtherPackets(s, p, now);
    } else if IsClient(s, p.from) && Content(p).req.Call? {
      if Callable(s.reg, Content(p).req.target, Content(p).req.name) {
        CallReaches(s, p, now, Content(p).req);
      } else {
        CallRefused(s, p, now, Content(p).req);
      }
    }
  }

  lemma StepReached(s: State, e: Event)
    requires AllReached(s.core, s.handled) && s.core.step == |s.handled| && Conservation.Known(s)
    ensures AllReached(Step(s, e).core, Step(s, e).handled)
  {
    if e.Next? && s.batch != [] {
      HandleReached(s.core, s.handled, s.batch[0], e.now);
    } else {
      var s' := Step(s, e).core;
      OtherGrew(s, e);
      forall i | 0 <= i < |s'.forwards| ensures Reached(s', s.handled, s'.forwards[i], i + 1) {
        ReachedStays(s.core, s.handled, s', s.handled, s.core.forwards[i], i + 1);
      }
    }
  }

  lemma OtherGrew(s: State, e: Event)
    requires !(e.Next? && s.batch != [])
    ensures var s' := Step(s, e);
            && Grew(s.core.peers, s'.core.peers) && s'.core.cfg == s.core.cfg && s'.core.reg == s.core.reg
            && s'.core.forwards == s.core.forwards && s'.handled == s.handled
  {
    if e.Tick? {
      TickGrew(s, e.now);
    } else if !e.Next? {
      forall a | a in s.core.peers { ConnectionGrew(s, e, a); }
    }
  }

  lemma TickGrew(s: State, now: int)
    ensures Grew(s.core.peers, TickStep(s, now).core.peers)
  {
    TimeOutStill(s.core.peers, s.core.calls, s.core.step, Overdue(s.core.calls, now), (f: Frame) => false);
  }

  lemma ConnectionGrew(s: State, e: Event, a: Id)
    requires !e.Next? && !e.Tick? && a in s.core.peers
    ensures a in Step(s, e).core.peers
    ensures var q, q' := s.core.peers[a], Step(s, e).core.peers[a]; q'.sent == q.sent && (q'.open ==> q.open) && q'.net == q.net
  {}

  /** In every run: every call that was forwarded is in the log of its target, unless the
      target is closed, or the frame did not fit and the caller was closed for it. */
  lemma {:induction false} RunReached(cfg: Config, es: seq<Event>)
    ensures AllReached(Run(Init(cfg), es).core, Run(Init(cfg), es).handled)
  {
    if es != [] {
      var n := |es| - 1;
      RunReached(cfg, es[..n]);
      Conservation.RunBalance(cfg, es[..n]);
      Causality.RunExplained(cfg, es[..n]);
      StepReached(Run(Init(cfg), es[..n]), es[n]);
    }
  }

  // ---- monitors ----

  lemma {:induction false} ConfigStays(cfg: Config, es: seq<Event>)
    ensures Run(Init(cfg), es).core.cfg == cfg
  {
    if es != [] {
      var s, e := Run(Init(cfg), es[..|es| - 1]), es[|es| - 1];
      ConfigStays(cfg, es[..|es| - 1]);
      if e.Next? && s.batch != [] { HandleGrew(s.core, s.batch[0], e.now); } else { OtherGrew(s, e); }
    }
  }

  /** A broker that was not started for monitors has none in any run, and writes no list
      message to anybody. */
  lemma {:induction false} NoMonitors(cfg: Config, es: seq<Event>)
    requires !cfg.monitorMode
    ensures Gate.Monitors(cfg, es) == {} && Run(Init(cfg), es).core.reg.monitors == map[]
  {
    if es != [] {
      var n := |es| - 1;
      NoMonitors(cfg, es[..n]);
      ConfigStays(cfg, es[..n]);
    }
    Gate.MonitorsGated(cfg, es);
  }

  lemma NoLists(cfg: Config, es: seq<Event>, a: Id, i: nat)
    requires !cfg.monitorMode
    requires var ps := Run(Init(cfg), es).core.peers; a in ps && i < |ps[a].sent|
    ensures var f := Run(Init(cfg), es).core.peers[a].sent[i].frame; !f.MonitorAll? && !f.MonitorAdd? && !f.MonitorRemove?
  {
    var sent := Run(Init(cfg), es).core.peers[a].sent;
    NoMonitors(cfg, es);
    Replica.RunUnlisted(cfg, es, a);
    Links.SelectNone(sent, IsList());
    assert !IsList()(sent[i].frame);
  }

  // ---- sweeps ----

  /** In every run fewer than fifty departures have gone by since the last sweep. */
  lemma {:induction false} RunSwept(cfg: Config, es: seq<Event>)
    ensures Run(Init(cfg), es).core.prio < 50
  {
    if es != [] {
      var s, e := Run(Init(cfg), es[..|es| - 1]), es[|es| - 1];
      RunSwept(cfg, es[..|es| - 1]);
      if e.Next? && s.batch != [] { HandleCounts(s.core, s.batch[0], e.now); }
    }
  }

  lemma HandleCounts(s: Core, p: Packet, now: int)
    requires s.prio < 50
    ensures Handle(s, p, now).prio < 50
  {}
}
