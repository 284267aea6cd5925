/** Delivery order of posts: every subscriber sees them in the order in which the
    broker received them, so any two subscribers agree. */
module Order {
  import opened Wire
  import opened Peers
  import opened Topics
  import opened Registry
  import opened Calls
  import opened Codec
  import opened Broker
  import opened Causality

  /** Frames of which one packet writes at most one to an adapter. */
  predicate Single(f: Frame) { f.PostResp? || f.CallResp? }

  /** Stamps never go back, no two posts or calls share one, and theirs are below the
      bound. */
  predicate Ordered(sent: seq<Sent>, bound: nat) {
    && (forall i | 0 <= i < |sent| :: sent[i].at <= bound && (Single(sent[i].frame) ==> sent[i].at < bound))
    && (forall i, j | 0 <= i < j < |sent| ::
          sent[i].at <= sent[j].at && (Single(sent[i].frame) && Single(sent[j].frame) ==> sent[i].at < sent[j].at))
  }

  ghost predicate LogsOrdered(ps: PeerMap, bound: nat) {
    forall a | a in ps :: Ordered(ps[a].sent, bound)
  }

  lemma WriteOrdered(p: Peer, at: nat, net: bool, f: Frame)
    requires Ordered(p.sent, at)
    ensures Ordered(Write(p, at, net, f).sent, if Single(f) then at + 1 else at)
  {}

  lemma Relax(ps: PeerMap, k: nat)
    requires LogsOrdered(ps, k)
    ensures LogsOrdered(ps, k + 1)
  {}

  lemma SendOrdered(ps: PeerMap, a: Id, at: nat, f: Frame)
    requires LogsOrdered(ps, at)
    ensures LogsOrdered(Send(ps, a, at, f), if Single(f) then at + 1 else at)
  {
    if a in ps { WriteOrdered(ps[a], at, ps[a].net, f); }
    Relax(ps, at);
  }

  lemma BroadcastOrdered(ps: PeerMap, to: set<Id>, at: nat, f: Frame, fits: (Frame, bool) -> bool)
    requires LogsOrdered(ps, at)
    ensures LogsOrdered(Broadcast(ps, to, at, f, fits), if Single(f) then at + 1 else at)
  {
    Relax(ps, at);
    forall a | a in ps { WriteOrdered(ps[a], at, ps[a].net, f); }
  }

  lemma AuthOrdered(s: Core, a: Id, r: Request)
    requires LogsOrdered(s.peers, s.step) && r.Auth?
    ensures LogsOrdered(HandleAuth(s, a, r).core.peers, s.step)
  {
    var s1 := Enroll(s, a, r);
    var f := AuthResp(AuthResult(s, r), FLORA_VERSION);
    SendOrdered(s1.peers, a, s.step, f);
    var s2 := SendTo(s1, a, f);
    SendOrdered(s2.peers, a, s.step, MonitorAll(Items(s2.reg.infos)));
    if Lookup(s2.reg, a).Some? {
      var add := MonitorAdd(ToItem(Lookup(s2.reg, a).value));
      BroadcastOrdered(s2.peers, s2.reg.monitors.Keys, s.step, add, s.cfg.fits);
    }
  }

  lemma RequestOrdered(s: Core, a: Id, r: Request, now: int)
    requires LogsOrdered(s.peers, s.step)
    ensures LogsOrdered(HandleRequest(s, a, r, now).core.peers, s.step + 1)
  {
    Relax(s.peers, s.step);
    if r.Auth? {
      AuthOrdered(s, a, r);
      Relax(HandleAuth(s, a, r).core.peers, s.step);
    } else if a in s.reg.infos {
      match r
      case Subscribe(name) => SubscribeOrdered(s, a, name);
      case Post(t, name, args) => PostOrdered(s, a, t, name, args);
      case Call(_, _, _, _, _) => CallOrdered(s, a, r, now);
      case Reply(_, _, _) => ReplyOrdered(s, a, r);
      case Ping => PingOrdered(s, a);
      case _ =>
    }
  }

  lemma SubscribeOrdered(s: Core, a: Id, name: string)
    requires LogsOrdered(s.peers, s.step)
    ensures LogsOrdered(HandleSubscribe(s, a, name).core.peers, s.step + 1)
  {
    Relax(s.peers, s.step);
    if name in s.topics.persist {
      SendOrdered(s.peers, a, s.step, PostResp(PERSIST, name, s.topics.persist[name], 0, ""));
    }
  }

  lemma PostOrdered(s: Core, a: Id, t: uint32, name: string, args: Caps)
    requires LogsOrdered(s.peers, s.step)
    ensures LogsOrdered(HandlePost(s, a, t, name, args).core.peers, s.step + 1)
  {
    Relax(s.peers, s.step);
    var f := PostResp(t, name, args, TagOf(s, a), NameOf(s.reg, a));
    BroadcastOrdered(s.peers, Audience(s.topics, name), s.step, f, s.cfg.fits);
  }

  lemma PingOrdered(s: Core, a: Id)
    requires LogsOrdered(s.peers, s.step)
    ensures LogsOrdered(HandlePing(s, a).core.peers, s.step + 1)
  {
    Relax(s.peers, s.step);
    SendOrdered(s.peers, a, s.step, Pong);
    Relax(Send(s.peers, a, s.step, Pong), s.step);
  }

  lemma CallOrdered(s: Core, a: Id, r: Request, now: int)
    requires LogsOrdered(s.peers, s.step) && r.Call?
    ensures LogsOrdered(HandleCall(s, a, r, now).core.peers, s.step + 1)
  {
    Relax(s.peers, s.step);
    match Callee(s, r.target, r.name)
    case None =>
      var f := ReplyResp(r.cliid, ENEXISTS, None, 0);
      SendOrdered(s.peers, a, s.step, f);
      Relax(Send(s.peers, a, s.step, f), s.step);
    case Some(t) =>
      var f := CallResp(|s.forwards| + 1, r.name, r.args, TagOf(s, a), NameOf(s.reg, a));
      SendOrdered(s.peers, t, s.step, f);
  }

  lemma ReplyOrdered(s: Core, a: Id, r: Request)
    requires LogsOrdered(s.peers, s.step) && r.Reply?
    ensures LogsOrdered(HandleReply(s, a, r).core.peers, s.step + 1)
  {
    Relax(s.peers, s.step);
    var i := Find(s.calls, r.svrid, a);
    if i < |s.calls| {
      var c := s.calls[i];
      var f := ReplyResp(c.cliid, SUCCESS, Some(Response(r.code, r.values, NameOf(s.reg, a))), TagOf(s, a));
      SendOrdered(s.peers, c.sender, s.step, f);
      Relax(Send(s.peers, c.sender, s.step, f), s.step);
    }
  }

  lemma EraseOrdered(s: Core, a: Id, now: int)
    requires LogsOrdered(s.peers, s.step)
    ensures LogsOrdered(DoErase(s, a, now).peers, s.step + 1)
  {
    Relax(s.peers, s.step);
    if Lookup(s.reg, a).Some? {
      var f := MonitorRemove(Lookup(s.reg, a).value.id);
      BroadcastOrdered(s.peers, s.reg.monitors.Keys, s.step, f, s.cfg.fits);
      Relax(Broadcast(s.peers, s.reg.monitors.Keys, s.step, f, s.cfg.fits), s.step);
    }
  }

  lemma HandleOrdered(s: Core, p: Packet, now: int)
    requires LogsOrdered(s.peers, s.step)
    ensures LogsOrdered(Handle(s, p, now).peers, s.step + 1)
  {
    Relax(s.peers, s.step);
    if p.body.None? {
      EraseOrdered(s, p.from, now);
    } else if p.from !in s.reg.monitors && ParseRequest(p.body.value).Good? {
      RequestOrdered(s, p.from, ParseRequest(p.body.value).req, now);
    }
  }

  lemma {:induction false} TimeOutOrdered(ps: PeerMap, l: seq<PendingCall>, at: nat, n: nat)
    requires LogsOrdered(ps, at) && n <= |l|
    ensures LogsOrdered(TimeOut(ps, l, at, n), at)
  {
    if n > 0 {
      TimeOutOrdered(ps, l, at, n - 1);
      SendOrdered(TimeOut(ps, l, at, n - 1), l[n - 1].sender, at, ReplyResp(l[n - 1].cliid, ETIMEOUT, None, 0));
    }
  }

  lemma StepOrdered(s: State, e: Event)
    requires LogsOrdered(s.core.peers, s.core.step)
    ensures LogsOrdered(Step(s, e).core.peers, Step(s, e).core.step)
  {
    match e
    case Tick(now) => TimeOutOrdered(s.core.peers, s.core.calls, s.core.step, Overdue(s.core.calls, now));
    case Next(now) => if s.batch != [] { HandleOrdered(s.core, s.batch[0], now); }
    case _ =>
  }

  lemma {:induction false} RunOrdered(cfg: Config, es: seq<Event>)
    ensures var s := Run(Init(cfg), es); LogsOrdered(s.core.peers, s.core.step)
  {
    if es != [] {
      RunOrdered(cfg, es[..|es| - 1]);
      StepOrdered(Run(Init(cfg), es[..|es| - 1]), es[|es| - 1]);
    }
  }

  // ---- forwarded calls ----

  /** Each packet forwards at most one call, and calls are forwarded in packet order. */
  ghost predicate ForwardsOrdered(fw: seq<Forward>, bound: nat) {
    && (forall i | 0 <= i < |fw| :: fw[i].at < bound)
    && (forall i, j | 0 <= i < j < |fw| :: fw[i].at < fw[j].at)
  }

  lemma HandleForwards(s: Core, p: Packet, now: int)
    ensures var fw := Handle(s, p, now).forwards;
            fw == s.forwards || (|fw| == |s.forwards| + 1 && s.forwards <= fw && fw[|s.forwards|].at == s.step)
  {}

  lemma ForwardsMore(fw: seq<Forward>, fw': seq<Forward>, at: nat)
    requires ForwardsOrdered(fw, at)
    requires fw' == fw || (|fw'| == |fw| + 1 && fw <= fw' && fw'[|fw|].at == at)
    ensures ForwardsOrdered(fw', at + 1)
  {}

  lemma StepForwards(s: State, e: Event)
    requires ForwardsOrdered(s.core.forwards, s.core.step)
    ensures ForwardsOrdered(Step(s, e).core.forwards, Step(s, e).core.step)
  {
    if e.Next? && s.batch != [] {
      HandleForwards(s.core, s.batch[0], e.now);
      ForwardsMore(s.core.forwards, Handle(s.core, s.batch[0], e.now).forwards, s.core.step);
    } else {
      assert Step(s, e).core.forwards == s.core.forwards && Step(s, e).core.step == s.core.step;
    }
  }

  /** Posts reach a subscriber in arrival order: of two post frames in one log, the
      earlier was caused by a packet that arrived earlier. The cause is the post itself,
      or the subscription that was answered with the stored value of an earlier post. */
  lemma ArrivalOrder(cfg: Config, es: seq<Event>, a: Id, i: nat, j: nat)
    requires var ps := Run(Init(cfg), es).core.peers;
             a in ps && i < j < |ps[a].sent| && ps[a].sent[i].frame.PostResp? && ps[a].sent[j].frame.PostResp?
    ensures var s := Run(Init(cfg), es);
            var x, y := s.core.peers[a].sent[i], s.core.peers[a].sent[j];
            && x.at < y.at < |s.arrived|
            && Cause(s.arrived, s.core.forwards, a, x) && Cause(s.arrived, s.core.forwards, a, y)
  {
    var s := Run(Init(cfg), es);
    RunOrdered(cfg, es);
    RunExplained(cfg, es);
    assert s.handled <= s.arrived;
    HistoryGrows(s.core.peers, s.handled, s.core.forwards, s.arrived, s.core.forwards);
    var x, y := s.core.peers[a].sent[i], s.core.peers[a].sent[j];
    assert Ordered(s.core.peers[a].sent, s.core.step);
    assert Cause(s.handled, s.core.forwards, a, y);
  }

  /** Two subscribers that both received two posts received them in the same order. */
  lemma TotalOrder(cfg: Config, es: seq<Event>, a: Id, b: Id, i: nat, j: nat, i': nat, j': nat)
    requires var ps := Run(Init(cfg), es).core.peers;
             && a in ps && b in ps && i < j < |ps[a].sent| && i' < |ps[b].sent| && j' < |ps[b].sent|
             && ps[a].sent[i].frame.PostResp? && ps[a].sent[j].frame.PostResp?
             && ps[a].sent[i].at == ps[b].sent[i'].at && ps[a].sent[j].at == ps[b].sent[j'].at
    ensures i' < j'
  {
    RunOrdered(cfg, es);
    var s := Run(Init(cfg), es);
    assert Ordered(s.core.peers[a].sent, s.core.step);
    assert Ordered(s.core.peers[b].sent, s.core.step);
  }
}
