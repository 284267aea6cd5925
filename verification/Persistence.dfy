/** Persistent messages: every open subscriber of a topic has, as the last persistent
    frame of that topic, the value the broker stores. */
module Persistence {
  import opened Wire
  import opened Peers
  import opened Topics
  import opened Registry
  import opened Calls
  import opened Codec
  import opened Broker
  import opened Quiet
  import opened Subscriptions
  import Conservation

  function PersistOf(name: string): Kind {
    (f: Frame) => f.PostResp? && f.msgtype == PERSIST && f.name == name
  }

  /** The payload of the last persistent frame of a topic in a log. */
  function LastValue(sent: seq<Sent>, name: string): Option<Caps> {
    var l := Select(sent, PersistOf(name));
    if l == [] then None else if l[|l| - 1].frame.PostResp? then Some(l[|l| - 1].frame.args) else None
  }

  function Stored(t: Topics, name: string): Option<Caps> {
    if name in t.persist then Some(t.persist[name]) else None
  }

  /** A topic without a stored value was never sent to anyone; an open subscriber
      was last sent the stored value. */
  predicate Current(p: Peer, t: Topics, name: string, a: Id) {
    && (name !in t.persist ==> LastValue(p.sent, name) == None)
    && (p.open && a in Subscribers(t, name) ==> LastValue(p.sent, name) == Stored(t, name))
  }

  ghost predicate UpToDate(s: Core, a: Id, name: string) {
    if a in s.peers then Current(s.peers[a], s.topics, name, a) else a !in Subscribers(s.topics, name)
  }

  /** The persistent frame of a topic that a packet makes the broker owe a subscriber:
      a new value, or the stored one when it subscribes. */
  function Due(s: Core, p: Packet, a: Id, name: string): Option<Frame> {
    if name == "" || p.from in s.reg.monitors || p.from !in s.reg.infos || !Content(p).Good? then None
    else match Content(p).req
      case Post(t, n, args) =>
        if t == PERSIST && n == name && a in Subscribers(s.topics, name)
        then Some(PostResp(PERSIST, name, args, TagOf(s, p.from), NameOf(s.reg, p.from))) else None
      case Subscribe(n) =>
        if n == name && p.from == a && a !in Subscribers(s.topics, name) && name in s.topics.persist
        then Some(PostResp(PERSIST, name, s.topics.persist[name], 0, "")) else None
      case _ => None
  }

  /** If the packet makes a frame due to an open subscriber, that frame fits the buffer in
      the subscriber's byte order. */
  predicate DueFits(s: Core, p: Packet, a: Id, name: string) {
    IsOpen(s.peers, a) && Due(s, p, a, name).Some? ==> Fits(s, a, Due(s, p, a, name).value)
  }

  /** The frame fits, or carries what the subscriber was sent last. */
  predicate Served(s: Core, p: Packet, a: Id, name: string) {
    var f := Due(s, p, a, name);
    IsOpen(s.peers, a) && f.Some? && f.value.PostResp? ==>
      Fits(s, a, f.value) || LastValue(s.peers[a].sent, name) == Some(f.value.args)
  }

  /** Nothing persistent is written, the value stays, and who is new on the list finds
      no value. */
  lemma StillUpToDate(s: Core, s': Core, a: Id, name: string)
    requires UpToDate(s, a, name) && Still(s.peers, s'.peers, PersistOf(name))
    requires Stored(s'.topics, name) == Stored(s.topics, name)
    requires a in Subscribers(s'.topics, name) ==> a in Subscribers(s.topics, name) || (a in s.peers && Stored(s.topics, name).None?)
    ensures UpToDate(s', a, name)
  {}

  /** A write of a persistent frame makes its value the last one, if it got through. */
  lemma WriteLast(p: Peer, at: nat, net: bool, f: Frame, name: string)
    requires f.PostResp? && f.msgtype == PERSIST
    ensures var q := Write(p, at, net, f);
            && (q.open ==> p.open)
            && (f.name != name ==> LastValue(q.sent, name) == LastValue(p.sent, name))
            && (f.name == name && q.open ==> LastValue(q.sent, name) == Some(f.args))
  {
    WriteSelect(p, at, net, f, PersistOf(name));
  }

  /** The packet is a persistent post of the topic, or a subscription to it. */
  predicate Touches(p: Packet, name: string) {
    Content(p).Good? && match Content(p).req
      case Post(t, n, _) => t == PERSIST && n == name
      case Subscribe(n) => n == name
      case _ => false
  }

  lemma PostWritesNone(s: Core, a: Id, r: Request, name: string)
    requires r.Post? && (r.msgtype != PERSIST || r.name != name)
    ensures Still(s.peers, HandlePost(s, a, r.msgtype, r.name, r.args).core.peers, PersistOf(name))
  {
    var f := PostResp(r.msgtype, r.name, r.args, TagOf(s, a), NameOf(s.reg, a));
    BroadcastStill(s.peers, Audience(s.topics, r.name), s.step, f, s.cfg.fits, PersistOf(name));
  }

  lemma SubscribeWritesNone(s: Core, a: Id, n: string, name: string)
    requires n != name
    ensures Still(s.peers, HandleSubscribe(s, a, n).core.peers, PersistOf(name))
  {
    if n in s.topics.persist {
      SendStill(s.peers, a, s.step, PostResp(PERSIST, n, s.topics.persist[n], 0, ""), PersistOf(name));
    }
  }

  /** A packet that does not touch a topic writes nothing persistent of it. */
  lemma UntouchedStill(s: Core, p: Packet, now: int, name: string)
    requires !Touches(p, name)
    ensures Still(s.peers, Handle(s, p, now).peers, PersistOf(name))
  {
    if Content(p).Good? && (Content(p).req.Post? || Content(p).req.Subscribe?) {
      var r, ps := Content(p).req, s.peers;
      if p.from in s.reg.infos && p.from !in s.reg.monitors {
        if r.Post? { PostWritesNone(s, p.from, r, name); } else { SubscribeWritesNone(s, p.from, r.name, name); }
        ps := HandleRequest(s, p.from, r, now).core.peers;
      }
      PacketHandled(s, p, now);
      ShutStill(s.peers, ps, p.from, PersistOf(name));
    } else {
      HandleStill(s, p, now, PersistOf(name));
    }
  }

  lemma UntouchedConverges(s: Core, p: Packet, now: int, a: Id, name: string)
    requires UpToDate(s, a, name) && !Touches(p, name)
    ensures UpToDate(Handle(s, p, now), a, name)
  {
    UntouchedStill(s, p, now, name);
    HandleTopics(s, p, now);
    if a in Subscribers(TopicsAfter(s, p, now), name) { Members(s, p, now, name, a); }
    StillUpToDate(s, Handle(s, p, now), a, name);
  }

  /** A packet of a topic that does not get past its first tests. */
  lemma TurnedAway(s: Core, p: Packet, now: int, a: Id, name: string)
    requires UpToDate(s, a, name) && Touches(p, name)
    requires name == "" || p.from in s.reg.monitors || p.from !in s.reg.infos
    ensures UpToDate(Handle(s, p, now), a, name)
  {
    var s' := Handle(s, p, now);
    assert s'.peers == Shut(s.peers, p.from) && s'.topics == s.topics;
    StillUpToDate(s, s', a, name);
  }

  /** After a subscription: up to date exactly if the stored value, if there is one and
      the subscriber is new, fits in its byte order or was the last it had been sent. */
  lemma SubscribeConverges(s: Core, p: Packet, now: int, a: Id, name: string)
    requires UpToDate(s, a, name) && Content(p) == Good(Subscribe(name)) && name != "" && p.from in s.peers
    requires p.from !in s.reg.monitors && p.from in s.reg.infos
    ensures UpToDate(Handle(s, p, now), a, name) <==> Served(s, p, a, name)
  {
    var s', t := Handle(s, p, now), Add(s.topics, p.from, name);
    var o := HandleSubscribe(s, p.from, name);
    assert s'.peers == o.core.peers && s'.topics == t;
    assert a != p.from ==> (a in Subscribers(t, name) <==> a in Subscribers(s.topics, name));
    if name in s.topics.persist && a in s.peers {
      WriteLast(s.peers[a], s.step, s.peers[a].net, PostResp(PERSIST, name, s.topics.persist[name], 0, ""), name);
    }
  }

  /** The fit is needed: after a persistent post an open subscriber that its socket
      still serves is up to date exactly if the frame fit in its byte order, or it had
      been sent the same value before. */
  lemma FitIsNeeded(s: Core, a: Id, r: Request, x: Id)
    requires r.Post? && r.msgtype == PERSIST && r.name != "" && x in s.peers && x in Subscribers(s.topics, r.name)
    requires s.peers[x].open && !s.peers[x].gone && s.peers[x].room > 0
    ensures var s' := HandlePost(s, a, r.msgtype, r.name, r.args).core;
            var f := PostResp(PERSIST, r.name, r.args, TagOf(s, a), NameOf(s.reg, a));
            Current(s'.peers[x], s'.topics, r.name, x)
            <==> s.cfg.fits(f, s.peers[x].net) || LastValue(s.peers[x].sent, r.name) == Some(r.args)
  {
    var f := PostResp(PERSIST, r.name, r.args, TagOf(s, a), NameOf(s.reg, a));
    WriteLast(s.peers[x], s.step, s.peers[x].net, f, r.name);
    KeepIn(Subscribers(s.topics, r.name), LiveSet(s.peers) * OpenSet(s.peers), x);
  }

  /** After a persistent post: up to date exactly if the frame fit, or carried what the
      subscriber had been sent last. */
  lemma PostConverges(s: Core, p: Packet, now: int, a: Id, name: string)
    requires UpToDate(s, a, name) && name != "" && GoneClosed(s.peers)
    requires Content(p).Good? && Content(p).req.Post? && Content(p).req.msgtype == PERSIST && Content(p).req.name == name
    requires p.from !in s.reg.monitors && p.from in s.reg.infos
    ensures UpToDate(Handle(s, p, now), a, name) <==> Served(s, p, a, name)
  {
    var r := Content(p).req;
    var o := HandlePost(s, p.from, PERSIST, name, r.args);
    assert Handle(s, p, now).peers == o.core.peers && Handle(s, p, now).topics == o.core.topics;
    KeepIn(Subscribers(s.topics, name), LiveSet(s.peers) * OpenSet(s.peers), a);
    if a in s.peers {
      var f := PostResp(PERSIST, name, r.args, TagOf(s, p.from), NameOf(s.reg, p.from));
      WriteLast(s.peers[a], s.step, s.peers[a].net, f, name);
      if IsOpen(s.peers, a) && a in Subscribers(s.topics, name) && s.peers[a].room > 0 { FitIsNeeded(s, p.from, r, a); }
    }
  }

  lemma HandleConverges(s: Core, p: Packet, now: int, a: Id, name: string)
    requires UpToDate(s, a, name) && p.from in s.peers && GoneClosed(s.peers)
    ensures UpToDate(Handle(s, p, now), a, name) <==> Served(s, p, a, name)
  {
    if !Touches(p, name) {
      UntouchedConverges(s, p, now, a, name);
    } else if name == "" || p.from in s.reg.monitors || p.from !in s.reg.infos {
      TurnedAway(s, p, now, a, name);
    } else if Content(p).req.Subscribe? {
      SubscribeConverges(s, p, now, a, name);
    } else {
      PostConverges(s, p, now, a, name);
    }
  }

  // ---- runs ----

  predicate ServedStep(s: State, e: Event, a: Id, name: string) {
    e.Next? && s.batch != [] ==> Served(s.core, s.batch[0], a, name)
  }

  predicate FittingStep(s: State, e: Event, a: Id, name: string) {
    e.Next? && s.batch != [] ==> DueFits(s.core, s.batch[0], a, name)
  }

  lemma StepConverges(s: State, e: Event, a: Id, name: string)
    requires UpToDate(s.core, a, name) && Conservation.Known(s)
    ensures UpToDate(Step(s, e).core, a, name) <==> ServedStep(s, e, a, name)
  {
    match e
    case Next(now) => if s.batch != [] { HandleConverges(s.core, s.batch[0], now, a, name); }
    case Tick(now) =>
      var n := Overdue(s.core.calls, now);
      TimeOutStill(s.core.peers, s.core.calls, s.core.step, n, PersistOf(name));
      StillUpToDate(s.core, Step(s, e).core, a, name);
    case _ =>
  }

  lemma {:induction false} ServedSoFar(cfg: Config, es: seq<Event>, a: Id, name: string, i: nat)
    requires i <= |es| && forall k | 0 <= k < i :: ServedStep(Run(Init(cfg), es[..k]), es[k], a, name)
    ensures UpToDate(Run(Init(cfg), es[..i]).core, a, name)
  {
    if i > 0 {
      ServedSoFar(cfg, es, a, name, i - 1);
      Conservation.RunBalance(cfg, es[..i - 1]);
      StepConverges(Run(Init(cfg), es[..i - 1]), es[i - 1], a, name);
      RunNext(Init(cfg), es, i - 1);
    }
  }

  /** Throughout a run a connection is up to date with a topic if and only if each frame
      that became due to it while it was open fit, or carried what it had been sent last. */
  lemma RunConverges(cfg: Config, es: seq<Event>, a: Id, name: string)
    ensures (forall i | 0 <= i <= |es| :: UpToDate(Run(Init(cfg), es[..i]).core, a, name))
            <==> (forall i | 0 <= i < |es| :: ServedStep(Run(Init(cfg), es[..i]), es[i], a, name))
  {
    if forall i | 0 <= i <= |es| :: UpToDate(Run(Init(cfg), es[..i]).core, a, name) {
      forall i | 0 <= i < |es| ensures ServedStep(Run(Init(cfg), es[..i]), es[i], a, name) {
        Conservation.RunBalance(cfg, es[..i]);
        StepConverges(Run(Init(cfg), es[..i]), es[i], a, name);
        RunNext(Init(cfg), es, i);
      }
    }
    if forall i | 0 <= i < |es| :: ServedStep(Run(Init(cfg), es[..i]), es[i], a, name) {
      forall i | 0 <= i <= |es| ensures UpToDate(Run(Init(cfg), es[..i]).core, a, name) {
        ServedSoFar(cfg, es, a, name, i);
      }
    }
  }

  /** In every run in which the persistent frames due to a connection fit the buffer, its
      last persistent frame of each topic it subscribes to carries the stored value. */
  lemma FittingRunConverges(cfg: Config, es: seq<Event>, a: Id, name: string)
    requires forall i | 0 <= i < |es| :: FittingStep(Run(Init(cfg), es[..i]), es[i], a, name)
    ensures var s := Run(Init(cfg), es).core;
            IsOpen(s.peers, a) && a in Subscribers(s.topics, name) ==> LastValue(s.peers[a].sent, name) == Stored(s.topics, name)
  {
    forall i | 0 <= i < |es| ensures ServedStep(Run(Init(cfg), es[..i]), es[i], a, name) {
      assert FittingStep(Run(Init(cfg), es[..i]), es[i], a, name);
    }
    ServedSoFar(cfg, es, a, name, |es|);
    assert es[..|es|] == es;
  }
}
