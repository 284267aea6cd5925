/** Which frames a packet can cause: for every other kind of frame all logs stand still. */
module Quiet {
  import opened Wire
  import opened Peers
  import opened Topics
  import opened Registry
  import opened Calls
  import opened Broker

  type Kind = Frame -> bool

  /** List messages for monitors. */
  function IsList(): Kind { (f: Frame) => f.MonitorAll? || f.MonitorAdd? || f.MonitorRemove? }

  /** The entries of a log whose frame is of a kind, in order. */
  function Select(sent: seq<Sent>, kind: Kind): seq<Sent> {
    if sent == [] then [] else
    var x := sent[|sent| - 1];
    Select(sent[..|sent| - 1], kind) + if kind(x.frame) then [x] else []
  }

  /** Between ps and qs adapters may have closed and logs grown, but no frame of the
      kind was written. */
  ghost predicate Still(ps: PeerMap, qs: PeerMap, kind: Kind) {
    && ps.Keys == qs.Keys
    && (forall a | a in ps :: (qs[a].open ==> ps[a].open) && qs[a].net == ps[a].net && qs[a].gone == ps[a].gone)
    && (forall a | a in ps :: ps[a].sent <= qs[a].sent && Select(qs[a].sent, kind) == Select(ps[a].sent, kind))
  }

  /** A write to an adapter that is still open afterwards was logged. */
  lemma WriteSelect(p: Peer, at: nat, net: bool, f: Frame, kind: Kind)
    ensures var q := Write(p, at, net, f);
            && (q.open ==> p.open) && p.sent <= q.sent
            && (!kind(f) || q.sent == p.sent ==> Select(q.sent, kind) == Select(p.sent, kind))
            && (q.sent == p.sent || Select(q.sent, kind) == Select(p.sent, kind) + if kind(f) then [Sent(at, net, f)] else [])
            && (q.open ==> Select(q.sent, kind) == Select(p.sent, kind) + if kind(f) then [Sent(at, net, f)] else [])
  {}

  lemma SendStill(ps: PeerMap, a: Id, at: nat, f: Frame, kind: Kind)
    requires !kind(f)
    ensures Still(ps, Send(ps, a, at, f), kind)
  {}

  lemma BroadcastStill(ps: PeerMap, to: set<Id>, at: nat, f: Frame, fits: (Frame, bool) -> bool, kind: Kind)
    requires !kind(f)
    ensures Still(ps, Broadcast(ps, to, at, f, fits), kind)
  {}

  lemma StillTwice(ps: PeerMap, qs: PeerMap, rs: PeerMap, kind: Kind)
    requires Still(ps, qs, kind) && Still(qs, rs, kind)
    ensures Still(ps, rs, kind)
  {}

  /** The kinds of frame that a request can make the broker write. */
  predicate Causes(r: Request, f: Frame) {
    match r
    case Auth(_, _, _, _) => f.AuthResp? || f.MonitorAll? || f.MonitorAdd?
    case Subscribe(_) => f.PostResp?
    case Post(_, _, _) => f.PostResp?
    case Call(_, _, _, _, _) => f.CallResp? || f.ReplyResp?
    case Reply(_, _, _) => f.ReplyResp?
    case Ping => f.Pong?
    case _ => false
  }

  predicate CanCause(p: Packet, f: Frame) {
    if p.body.None? then f.MonitorRemove? else Content(p).Good? && Causes(Content(p).req, f)
  }

  lemma AnnounceStill(s: Core, a: Id, flags: uint32, kind: Kind)
    requires forall f: Frame | f.MonitorAll? || f.MonitorAdd? :: !kind(f)
    ensures Still(s.peers, Announce(s, a, flags).peers, kind)
  {
    if IsMonitor(flags) {
      SendStill(s.peers, a, s.step, MonitorAll(Items(s.reg.infos)), kind);
    } else if Lookup(s.reg, a).Some? {
      var f := MonitorAdd(ToItem(Lookup(s.reg, a).value));
      BroadcastStill(s.peers, s.reg.monitors.Keys, s.step, f, s.cfg.fits, kind);
    }
  }

  lemma EnrollStill(s: Core, a: Id, r: Request, kind: Kind)
    requires r.Auth?
    ensures Still(s.peers, Enroll(s, a, r).peers, kind) && Enroll(s, a, r).step == s.step
  {}

  /** Registration changes no more of a connection than its tag. */
  lemma EnrollPeers(s: Core, a: Id, r: Request, x: Id)
    requires r.Auth? && x in s.peers
    ensures var ps := Enroll(s, a, r).peers;
            x in ps && ps[x] == s.peers[x].(tag := ps[x].tag) && (x != a ==> ps[x] == s.peers[x])
  {}

  lemma AuthEnrolls(s: Core, a: Id, r: Request)
    requires r.Auth?
    ensures HandleAuth(s, a, r).core.reg == Enroll(s, a, r).reg
  {}

  lemma AuthStill(s: Core, a: Id, r: Request, kind: Kind)
    requires r.Auth? && forall f: Frame | f.AuthResp? || f.MonitorAll? || f.MonitorAdd? :: !kind(f)
    ensures Still(s.peers, HandleAuth(s, a, r).core.peers, kind)
  {
    var s1 := Enroll(s, a, r);
    EnrollStill(s, a, r, kind);
    var f := AuthResp(AuthResult(s, r), FLORA_VERSION);
    var s2 := SendTo(s1, a, f);
    SendStill(s1.peers, a, s.step, f, kind);
    StillTwice(s.peers, s1.peers, s2.peers, kind);
    AnnounceStill(s2, a, r.flags, kind);
    StillTwice(s.peers, s2.peers, Announce(s2, a, r.flags).peers, kind);
  }

  lemma CallStill(s: Core, a: Id, r: Request, now: int, kind: Kind)
    requires r.Call? && forall f: Frame | f.CallResp? || f.ReplyResp? :: !kind(f)
    ensures Still(s.peers, HandleCall(s, a, r, now).core.peers, kind)
  {
    match Callee(s, r.target, r.name)
    case None => SendStill(s.peers, a, s.step, ReplyResp(r.cliid, ENEXISTS, None, 0), kind);
    case Some(t) =>
      SendStill(s.peers, t, s.step, CallResp(|s.forwards| + 1, r.name, r.args, TagOf(s, a), NameOf(s.reg, a)), kind);
  }

  lemma ReplyStill(s: Core, a: Id, r: Request, kind: Kind)
    requires r.Reply? && forall f: Frame | f.ReplyResp? :: !kind(f)
    ensures Still(s.peers, HandleReply(s, a, r).core.peers, kind)
  {
    var i := Find(s.calls, r.svrid, a);
    if i < |s.calls| {
      var c := s.calls[i];
      var f := ReplyResp(c.cliid, SUCCESS, Some(Response(r.code, r.values, NameOf(s.reg, a))), TagOf(s, a));
      SendStill(s.peers, c.sender, s.step, f, kind);
    }
  }

  lemma PostStill(s: Core, a: Id, r: Request, kind: Kind)
    requires (r.Post? || r.Subscribe?) && forall f: Frame | f.PostResp? :: !kind(f)
    ensures r.Post? ==> Still(s.peers, HandlePost(s, a, r.msgtype, r.name, r.args).core.peers, kind)
    ensures r.Subscribe? ==> Still(s.peers, HandleSubscribe(s, a, r.name).core.peers, kind)
  {
    if r.Post? {
      var f := PostResp(r.msgtype, r.name, r.args, TagOf(s, a), NameOf(s.reg, a));
      BroadcastStill(s.peers, Audience(s.topics, r.name), s.step, f, s.cfg.fits, kind);
    } else if r.name in s.topics.persist {
      SendStill(s.peers, a, s.step, PostResp(PERSIST, r.name, s.topics.persist[r.name], 0, ""), kind);
    }
  }

  lemma RequestStill(s: Core, a: Id, r: Request, now: int, kind: Kind)
    requires forall f: Frame | Causes(r, f) :: !kind(f)
    ensures Still(s.peers, HandleRequest(s, a, r, now).core.peers, kind)
  {
    if r.Auth? { AuthStill(s, a, r, kind); }
    else if a in s.reg.infos {
      match r
      case Subscribe(_) => PostStill(s, a, r, kind);
      case Post(_, _, _) => PostStill(s, a, r, kind);
      case Call(_, _, _, _, _) => CallStill(s, a, r, now, kind);
      case Reply(_, _, _) => ReplyStill(s, a, r, kind);
      case Ping => SendStill(s.peers, a, s.step, Pong, kind);
      case Unsubscribe(_) =>
      case DeclareMethod(_) =>
      case RemoveMethod(_) =>
    }
  }

  lemma ShutStill(ps: PeerMap, qs: PeerMap, a: Id, kind: Kind)
    requires Still(ps, qs, kind)
    ensures Still(ps, Shut(qs, a), kind)
  {}

  /** What a packet other than a departure does to the adapters. */
  lemma PacketHandled(s: Core, p: Packet, now: int)
    requires p.body.Some?
    ensures Handle(s, p, now).peers ==
            if p.from in s.reg.monitors || !Content(p).Good? then Shut(s.peers, p.from)
            else Settle(HandleRequest(s, p.from, Content(p).req, now), p.from)
  {}

  lemma EraseStill(s: Core, a: Id, now: int, kind: Kind)
    requires forall f: Frame | f.MonitorRemove? :: !kind(f)
    ensures Still(s.peers, DoErase(s, a, now).peers, kind)
  {
    if Lookup(s.reg, a).Some? {
      var f := MonitorRemove(Lookup(s.reg, a).value.id);
      BroadcastStill(s.peers, s.reg.monitors.Keys, s.step, f, s.cfg.fits, kind);
    }
  }

  /** A packet that cannot cause a kind of frame leaves all logs of that kind alone. */
  lemma HandleStill(s: Core, p: Packet, now: int, kind: Kind)
    requires forall f: Frame | CanCause(p, f) :: !kind(f)
    ensures Still(s.peers, Handle(s, p, now).peers, kind)
  {
    if p.body.None? {
      EraseStill(s, p.from, now, kind);
    } else {
      var ps := s.peers;
      if p.from !in s.reg.monitors && Content(p).Good? {
        RequestStill(s, p.from, Content(p).req, now, kind);
        ps := HandleRequest(s, p.from, Content(p).req, now).core.peers;
      }
      PacketHandled(s, p, now);
      ShutStill(s.peers, ps, p.from, kind);
    }
  }

  lemma {:induction false} TimeOutStill(ps: PeerMap, l: seq<PendingCall>, at: nat, n: nat, kind: Kind)
    requires n <= |l| && forall f: Frame | f.ReplyResp? :: !kind(f)
    ensures Still(ps, TimeOut(ps, l, at, n), kind)
  {
    if n > 0 {
      TimeOutStill(ps, l, at, n - 1, kind);
      var qs := TimeOut(ps, l, at, n - 1);
      SendStill(qs, l[n - 1].sender, at, ReplyResp(l[n - 1].cliid, ETIMEOUT, None, 0), kind);
      StillTwice(ps, qs, TimeOut(ps, l, at, n), kind);
    }
  }

  predicate IsAuth(p: Packet) { Content(p).Good? && Content(p).req.Auth? }

  lemma AuthHandled(s: Core, p: Packet, now: int)
    requires IsAuth(p) && p.from !in s.reg.monitors
    ensures var o := HandleAuth(s, p.from, Content(p).req);
            Handle(s, p, now).peers == Settle(o, p.from) && Handle(s, p, now).reg == o.core.reg
  {}

  /** Connections that come, close or expire write nothing. */
  lemma NothingWritten(s: State, e: Event, a: Id)
    requires !e.Next? && !e.Tick? && a in Step(s, e).core.peers
    ensures Step(s, e).core.peers[a].sent == if a in s.core.peers then s.core.peers[a].sent else []
    ensures a in s.core.peers && Step(s, e).core.peers[a].open ==> s.core.peers[a].open
    ensures Step(s, e).core.reg == s.core.reg && Step(s, e).core.topics == s.core.topics
  {}

  /** Logs only ever grow. */
  lemma StepGrows(s: State, e: Event)
    ensures s.core.peers.Keys <= Step(s, e).core.peers.Keys
    ensures forall a | a in s.core.peers :: s.core.peers[a].sent <= Step(s, e).core.peers[a].sent
    ensures s.core.forwards <= Step(s, e).core.forwards && s.handled <= Step(s, e).handled && s.arrived <= Step(s, e).arrived
  {
    match e
    case Tick(now) =>
      TimeOutStill(s.core.peers, s.core.calls, s.core.step, Overdue(s.core.calls, now), (f: Frame) => false);
    case Next(now) =>
      if s.batch != [] {
        HandleStill(s.core, s.batch[0], now, (f: Frame) => false);
        ForwardsGrow(s.core, s.batch[0], now);
      }
    case _ =>
  }

  lemma ForwardsGrow(s: Core, p: Packet, now: int)
    ensures s.forwards <= Handle(s, p, now).forwards
  {}

  predicate CallOrReply(p: Packet) { Content(p).Good? && (Content(p).req.Call? || Content(p).req.Reply?) }

  /** Only calls and replies touch the waiting list. */
  lemma OtherPackets(s: Core, p: Packet, now: int)
    requires !CallOrReply(p)
    ensures Handle(s, p, now).calls == s.calls && Handle(s, p, now).forwards == s.forwards
  {}
}
