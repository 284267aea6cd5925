/** Lazy purging is invisible: the broker, which drops closed and expired subscribers
    whenever it happens to meet them, writes the same frames as a broker that keeps
    plain lists and never drops anyone. */
module LazyPurge {
  import opened Wire
  import opened Peers
  import opened Topics
  import opened Registry
  import opened Calls
  import opened Broker
  import opened Quiet
  import opened Subscriptions
  import Conservation

  // ---- the plain broker ----

  function Without(l: seq<Id>, a: Id): seq<Id> {
    if l == [] then [] else if l[0] == a then Without(l[1..], a) else [l[0]] + Without(l[1..], a)
  }

  function PlainUnsubscribe(s: Core, a: Id, name: string): Outcome {
    if name == "" then Outcome(s, false)
    else Outcome(s.(topics := s.topics.(subs := s.topics.subs[name := Without(Subscribers(s.topics, name), a)])), true)
  }

  function PlainPost(s: Core, a: Id, t: uint32, name: string, args: Caps): Outcome {
    if t >= NUMBER_OF_MSGTYPE || name == "" then Outcome(s, false) else
    var f := PostResp(t, name, args, TagOf(s, a), NameOf(s.reg, a));
    Outcome(s.(peers := Broadcast(s.peers, Audience(s.topics, name), s.step, f, s.cfg.fits),
               topics := if t == PERSIST then s.topics.(persist := s.topics.persist[name := args]) else s.topics), true)
  }

  function PlainRequest(s: Core, a: Id, r: Request, now: int): Outcome {
    if a in s.reg.infos && r.Unsubscribe? then PlainUnsubscribe(s, a, r.name)
    else if a in s.reg.infos && r.Post? then PlainPost(s, a, r.msgtype, r.name, r.args)
    else HandleRequest(s, a, r, now)
  }

  function PlainErase(s: Core, a: Id): Core {
    match Lookup(s.reg, a)
    case None => s
    case Some(i) =>
      (if a in s.reg.monitors then s else ToMonitors(s, MonitorRemove(i.id))).(reg := Erase(s.reg, a))
  }

  function PlainHandle(s: Core, p: Packet, now: int): Core {
    var s' :=
      if p.body.None? then PlainErase(s, p.from)
      else if p.from in s.reg.monitors || !Content(p).Good? then s.(peers := Shut(s.peers, p.from))
      else
        var o := PlainRequest(s, p.from, Content(p).req, now);
        o.core.(peers := Settle(o, p.from));
    s'.(step := s.step + 1)
  }

  function PlainStep(s: State, e: Event): State {
    if !e.Next? then Step(s, e)
    else if s.batch == [] then s
    else s.(core := PlainHandle(s.core, s.batch[0], e.now), batch := s.batch[1..], handled := s.handled + [s.batch[0]])
  }

  function PlainRun(s: State, es: seq<Event>): State {
    if es == [] then s else PlainStep(PlainRun(s, es[..|es| - 1]), es[|es| - 1])
  }

  // ---- the relation ----

  /** The two brokers differ in their lists and sweep counters only. */
  function Swap(s: Core, p: Core): Core { s.(topics := p.topics, lastCmd := p.lastCmd, prio := p.prio) }

  /** Their lists have the same open subscribers in the same order. */
  ghost predicate SameOpen(ps: PeerMap, t: Topics, t': Topics) {
    forall n :: Keep(Subscribers(t, n), OpenSet(ps)) == Keep(Subscribers(t', n), OpenSet(ps))
  }

  ghost predicate Listed(ps: PeerMap, t: Topics) { forall n, x | x in Subscribers(t, n) :: x in ps }

  ghost predicate Alike(s: Core, p: Core) {
    && p == Swap(s, p) && p.topics.persist == s.topics.persist
    && SameOpen(s.peers, s.topics, p.topics) && GoneClosed(s.peers)
    && Listed(s.peers, s.topics) && Listed(s.peers, p.topics)
  }

  /** Adapters only ever close. */
  ghost predicate Closing(ps: PeerMap, qs: PeerMap) {
    ps.Keys == qs.Keys && forall a | a in ps :: (qs[a].open ==> ps[a].open) && qs[a].gone == ps[a].gone
  }

  lemma SameOpenLater(ps: PeerMap, qs: PeerMap, t: Topics, t': Topics)
    requires SameOpen(ps, t, t') && Closing(ps, qs) && GoneClosed(ps)
    ensures SameOpen(qs, t, t') && GoneClosed(qs)
  {
    assert OpenSet(qs) <= OpenSet(ps);
    forall n: string ensures Keep(Subscribers(t, n), OpenSet(qs)) == Keep(Subscribers(t', n), OpenSet(qs)) {
      KeepKeep(Subscribers(t, n), OpenSet(ps), OpenSet(qs));
      KeepKeep(Subscribers(t', n), OpenSet(ps), OpenSet(qs));
    }
  }

  lemma SameMember(ps: PeerMap, t: Topics, t': Topics, n: string, a: Id)
    requires SameOpen(ps, t, t') && IsOpen(ps, a)
    ensures a in Subscribers(t, n) <==> a in Subscribers(t', n)
  {
    KeepIn(Subscribers(t, n), OpenSet(ps), a);
    KeepIn(Subscribers(t', n), OpenSet(ps), a);
  }

  /** What is dropped from a list was not open. */
  lemma PruneOpen(subs: map<string, seq<Id>>, name: string, keep: set<Id>, open: set<Id>, n: string)
    requires open <= keep
    ensures Keep(Subscribers(Topics(Prune(subs, name, keep), map[]), n), open) == Keep(Subscribers(Topics(subs, map[]), n), open)
  {
    if name in subs { KeepKeep(subs[name], keep, open); }
  }

  lemma SweepOpen(subs: map<string, seq<Id>>, live: set<Id>, open: set<Id>, n: string)
    requires open <= live
    ensures Keep(Subscribers(Topics(Sweep(subs, live), map[]), n), open) == Keep(Subscribers(Topics(subs, map[]), n), open)
  {
    if n in subs { KeepKeep(subs[n], live, open); }
  }

  lemma {:induction false} WithoutKeeps(l: seq<Id>, a: Id, open: set<Id>)
    ensures Keep(Without(l, a), open) == Keep(l, open - {a})
  {
    if l != [] {
      WithoutKeeps(l[1..], a, open);
      if l[0] != a { assert Without(l, a)[1..] == Without(l[1..], a); }
    }
  }

  // ---- one packet ----

  lemma AddSame(ps: PeerMap, t: Topics, t': Topics, a: Id, name: string)
    requires SameOpen(ps, t, t')
    ensures SameOpen(ps, Add(t, a, name), Add(t', a, name))
  {
    var open := OpenSet(ps);
    if IsOpen(ps, a) { SameMember(ps, t, t', name, a); }
    forall n: string ensures Keep(Subscribers(Add(t, a, name), n), open) == Keep(Subscribers(Add(t', a, name), n), open) {
      assert Keep(Subscribers(t, n), open) == Keep(Subscribers(t', n), open);
      if n == name { AddKeeps(t, a, name, open); AddKeeps(t', a, name, open); }
    }
  }

  lemma AddKeeps(t: Topics, a: Id, name: string, open: set<Id>)
    ensures Keep(Subscribers(Add(t, a, name), name), open)
            == Keep(Subscribers(t, name), open) + if a in open && a !in Subscribers(t, name) then [a] else []
  {
    KeepAppend(Subscribers(t, name), [a], open);
    assert Keep([a], open) == if a in open then [a] else [];
  }

  lemma SubscribeSame(s: Core, p: Core, a: Id, name: string)
    requires Alike(s, p)
    ensures var o, q := HandleSubscribe(s, a, name), HandleSubscribe(p, a, name);
            o.ok == q.ok && q.core == Swap(o.core, q.core) && q.core.topics.persist == o.core.topics.persist
  {
    if IsOpen(s.peers, a) {
      SameMember(s.peers, s.topics, p.topics, name, a);
    } else if a in s.peers && name in s.topics.persist {
      var f := PostResp(PERSIST, name, s.topics.persist[name], 0, "");
      assert Send(s.peers, a, s.step, f) == s.peers;
    }
  }

  lemma UnsubscribeSame(ps: PeerMap, t: Topics, t': Topics, a: Id, name: string)
    requires SameOpen(ps, t, t') && GoneClosed(ps)
    ensures SameOpen(ps, t.(subs := Prune(t.subs, name, LiveSet(ps) - {a})),
                         t'.(subs := t'.subs[name := Without(Subscribers(t', name), a)]))
  {
    var open := OpenSet(ps);
    forall n: string
      ensures Keep(Subscribers(t.(subs := Prune(t.subs, name, LiveSet(ps) - {a})), n), open)
              == Keep(Subscribers(t'.(subs := t'.subs[name := Without(Subscribers(t', name), a)]), n), open)
    {
      assert Keep(Subscribers(t, n), open) == Keep(Subscribers(t', n), open);
      if n == name { UnsubscribeOne(t, t', a, name, LiveSet(ps), open); }
    }
  }

  lemma UnsubscribeOne(t: Topics, t': Topics, a: Id, name: string, live: set<Id>, open: set<Id>)
    requires open <= live && Keep(Subscribers(t, name), open) == Keep(Subscribers(t', name), open)
    ensures Keep(Subscribers(t.(subs := Prune(t.subs, name, live - {a})), name), open)
            == Keep(Without(Subscribers(t', name), a), open)
  {
    var l, l' := Subscribers(t, name), Subscribers(t', name);
    WithoutKeeps(l', a, open);
    KeepKeep(l', open, open - {a});
    KeepKeep(l, open, open - {a});
    KeepBoth(l, live - {a}, open, open - {a});
  }

  /** Dropping by two criteria, in either order. */
  lemma {:induction false} KeepBoth(l: seq<Id>, s: set<Id>, t: set<Id>, u: set<Id>)
    requires forall x :: x in u <==> x in s && x in t
    ensures Keep(Keep(l, s), t) == Keep(l, u)
  {
    if l != [] {
      KeepBoth(l[1..], s, t, u);
      if l[0] in s { assert Keep(l, s)[1..] == Keep(l[1..], s); }
    }
  }

  /** Writing to closed adapters has no effect, so only open subscribers matter. */
  lemma BroadcastSame(ps: PeerMap, t: Topics, t': Topics, name: string, at: nat, f: Frame, fits: (Frame, bool) -> bool)
    requires SameOpen(ps, t, t')
    ensures Broadcast(ps, Audience(t, name), at, f, fits) == Broadcast(ps, Audience(t', name), at, f, fits)
  {
    forall a | a in ps
      ensures Broadcast(ps, Audience(t, name), at, f, fits)[a] == Broadcast(ps, Audience(t', name), at, f, fits)[a]
    {
      if ps[a].open { SameMember(ps, t, t', name, a); }
    }
  }

  lemma PostSame(s: Core, p: Core, a: Id, r: Request)
    requires Alike(s, p) && r.Post?
    ensures var o, q := HandlePost(s, a, r.msgtype, r.name, r.args), PlainPost(p, a, r.msgtype, r.name, r.args);
            && o.ok == q.ok && q.core == Swap(o.core, q.core) && q.core.topics.persist == o.core.topics.persist
            && SameOpen(s.peers, o.core.topics, q.core.topics)
  {
    var o, q := HandlePost(s, a, r.msgtype, r.name, r.args), PlainPost(p, a, r.msgtype, r.name, r.args);
    if o.ok {
      var f := PostResp(r.msgtype, r.name, r.args, TagOf(s, a), NameOf(s.reg, a));
      BroadcastSame(s.peers, s.topics, p.topics, r.name, s.step, f, s.cfg.fits);
      var open, keep := OpenSet(s.peers), LiveSet(s.peers) * OpenSet(s.peers);
      assert open <= keep;
      forall n: string ensures Keep(Subscribers(o.core.topics, n), open) == Keep(Subscribers(q.core.topics, n), open) {
        PruneOpen(s.topics.subs, r.name, keep, open, n);
        assert Keep(Subscribers(s.topics, n), open) == Keep(Subscribers(p.topics, n), open);
      }
    }
  }

  /** All other requests do not look at the lists. */
  lemma OtherSame(s: Core, p: Core, a: Id, r: Request, now: int)
    requires Alike(s, p) && !(a in s.reg.infos && (r.Subscribe? || r.Unsubscribe? || r.Post?))
    ensures var o, q := HandleRequest(s, a, r, now), HandleRequest(p, a, r, now);
            && o.ok == q.ok && q.core == Swap(o.core, q.core)
            && o.core.topics == s.topics && q.core.topics == p.topics
  {
    if r.Auth? { AuthSame(s, p, a, r); }
  }

  lemma AuthSame(s: Core, p: Core, a: Id, r: Request)
    requires Alike(s, p) && r.Auth?
    ensures var o, q := HandleAuth(s, a, r), HandleAuth(p, a, r);
            && o.ok == q.ok && q.core == Swap(o.core, q.core)
            && o.core.topics == s.topics && q.core.topics == p.topics
  {
    var s1, p1 := Enroll(s, a, r), Enroll(p, a, r);
    assert p1 == Swap(s1, p1) && s1.topics == s.topics && p1.topics == p.topics;
    var f := AuthResp(AuthResult(s, r), FLORA_VERSION);
    var s2, p2 := SendTo(s1, a, f), SendTo(p1, a, f);
    assert Announce(p2, a, r.flags) == Swap(Announce(s2, a, r.flags), p2);
  }

  /** One request, before the sender of a failed one is closed. */
  lemma RequestSame(s: Core, p: Core, a: Id, r: Request, now: int)
    requires Alike(s, p)
    ensures var o, q := HandleRequest(s, a, r, now), PlainRequest(p, a, r, now);
            && o.ok == q.ok && q.core == Swap(o.core, q.core) && q.core.topics.persist == o.core.topics.persist
            && SameOpen(s.peers, o.core.topics, q.core.topics)
  {
    if a !in s.reg.infos || !(r.Subscribe? || r.Unsubscribe? || r.Post?) {
      OtherSame(s, p, a, r, now);
    } else if r.Subscribe? {
      SubscribeSame(s, p, a, r.name);
      AddSame(s.peers, s.topics, p.topics, a, r.name);
    } else if r.Unsubscribe? {
      UnsubscribeSame(s.peers, s.topics, p.topics, a, r.name);
    } else {
      PostSame(s, p, a, r);
    }
  }

  lemma EraseSame(s: Core, p: Core, a: Id, now: int)
    requires Alike(s, p)
    ensures var s', p' := DoErase(s, a, now), PlainErase(p, a);
            p' == Swap(s', p') && p'.topics.persist == s'.topics.persist && SameOpen(s.peers, s'.topics, p'.topics)
  {
    EraseTopics(s, a, now);
    var s', p' := DoErase(s, a, now), PlainErase(p, a);
    var open, live := OpenSet(s.peers), LiveSet(s.peers);
    assert open <= live;
    forall n: string ensures Keep(Subscribers(s'.topics, n), open) == Keep(Subscribers(p'.topics, n), open) {
      SweepOpen(s.topics.subs, live, open, n);
      assert Keep(Subscribers(s.topics, n), open) == Keep(Subscribers(p.topics, n), open);
    }
  }

  lemma HandleCloses(s: Core, p: Packet, now: int)
    ensures Closing(s.peers, Handle(s, p, now).peers)
  {
    HandleStill(s, p, now, (f: Frame) => false);
  }

  lemma {:induction false} WithoutIn(l: seq<Id>, a: Id, x: Id)
    requires x in Without(l, a)
    ensures x in l
  {
    if l[0] == a || x != l[0] { WithoutIn(l[1..], a, x); }
  }

  lemma PlainMembers(p: Core, k: Packet, now: int, n: string, x: Id)
    requires x in Subscribers(PlainHandle(p, k, now).topics, n)
    ensures x in Subscribers(p.topics, n) || x == k.from
  {
    if k.body.Some? && Content(k).Good? {
      var r := Content(k).req;
      if r.Unsubscribe? && x in Without(Subscribers(p.topics, n), k.from) {
        WithoutIn(Subscribers(p.topics, n), k.from, x);
      } else if r.Auth? {
        AuthTopics(p, k.from, r);
      }
    }
  }

  lemma AuthTopics(s: Core, a: Id, r: Request)
    requires r.Auth?
    ensures HandleAuth(s, a, r).core.topics == s.topics
  {}

  lemma HandleListed(s: Core, p: Core, k: Packet, now: int)
    requires Alike(s, p) && k.from in s.peers
    ensures Listed(s.peers, Handle(s, k, now).topics) && Listed(s.peers, PlainHandle(p, k, now).topics)
  {
    HandleTopics(s, k, now);
    forall n: string, x | x in Subscribers(Handle(s, k, now).topics, n) ensures x in s.peers {
      Members(s, k, now, n, x);
    }
    forall n: string, x | x in Subscribers(PlainHandle(p, k, now).topics, n) ensures x in s.peers {
      PlainMembers(p, k, now, n, x);
    }
  }

  lemma HandleAlike(s: Core, p: Core, k: Packet, now: int)
    requires Alike(s, p) && k.from in s.peers
    ensures Alike(Handle(s, k, now), PlainHandle(p, k, now))
  {
    var s', p' := Handle(s, k, now), PlainHandle(p, k, now);
    HandleCloses(s, k, now);
    HandleListed(s, p, k, now);
    if k.body.None? {
      EraseSame(s, p, k.from, now);
    } else if k.from !in s.reg.monitors && Content(k).Good? {
      RequestSame(s, p, k.from, Content(k).req, now);
    }
    SameOpenLater(s.peers, s'.peers, s'.topics, p'.topics);
  }

  // ---- runs ----

  /** A new connection is on no list. */
  lemma AcceptAlike(s: Core, p: Core, a: Id, x: Peer)
    requires Alike(s, p) && a !in s.peers && !x.gone
    ensures Alike(s.(peers := s.peers[a := x]), p.(peers := s.peers[a := x]))
  {
    var qs := s.peers[a := x];
    forall n: string ensures Keep(Subscribers(s.topics, n), OpenSet(qs)) == Keep(Subscribers(p.topics, n), OpenSet(qs)) {
      KeepSame(Subscribers(s.topics, n), OpenSet(s.peers), OpenSet(qs));
      KeepSame(Subscribers(p.topics, n), OpenSet(s.peers), OpenSet(qs));
      assert Keep(Subscribers(s.topics, n), OpenSet(s.peers)) == Keep(Subscribers(p.topics, n), OpenSet(s.peers));
    }
  }

  lemma {:induction false} KeepSame(l: seq<Id>, s: set<Id>, t: set<Id>)
    requires forall x | x in l :: x in s <==> x in t
    ensures Keep(l, s) == Keep(l, t)
  {
    if l != [] { KeepSame(l[1..], s, t); }
  }

  lemma PeersAlike(s: Core, p: Core, qs: PeerMap)
    requires Alike(s, p) && Closing(s.peers, qs)
    ensures Alike(s.(peers := qs), p.(peers := qs))
  {
    SameOpenLater(s.peers, qs, s.topics, p.topics);
  }

  lemma VanishAlike(s: Core, p: Core, a: Id)
    requires Alike(s, p) && a in s.peers && !s.peers[a].open
    ensures var qs := s.peers[a := s.peers[a].(gone := true)]; Alike(s.(peers := qs), p.(peers := qs))
  {
    var qs := s.peers[a := s.peers[a].(gone := true)];
    assert OpenSet(qs) == OpenSet(s.peers);
  }

  lemma TickAlike(s: State, p: State, now: int)
    requires p == s.(core := p.core) && Alike(s.core, p.core)
    ensures TickStep(p, now) == TickStep(s, now).(core := TickStep(p, now).core)
    ensures Alike(TickStep(s, now).core, TickStep(p, now).core)
  {
    var n := Overdue(s.core.calls, now);
    var qs := TimeOut(s.core.peers, s.core.calls, s.core.step, n);
    TimeOutStill(s.core.peers, s.core.calls, s.core.step, n, (f: Frame) => false);
    PeersAlike(s.core, p.core, qs);
  }

  lemma StepAlike(s: State, p: State, e: Event)
    requires p == s.(core := p.core) && Alike(s.core, p.core) && Conservation.Known(s)
    ensures PlainStep(p, e) == Step(s, e).(core := PlainStep(p, e).core)
    ensures Alike(Step(s, e).core, PlainStep(p, e).core)
  {
    match e
    case Accept(a, net, tag, room) =>
      if a !in s.core.peers { AcceptAlike(s.core, p.core, a, Peer(true, false, net, tag, room, [])); }
    case Put(_, _) =>
    case Delete(a) => PeersAlike(s.core, p.core, Shut(s.core.peers, a));
    case Vanish(a) => if CanVanish(s, a) { VanishAlike(s.core, p.core, a); }
    case Tick(now) => TickAlike(s, p, now);
    case Next(now) => if s.batch != [] { HandleAlike(s.core, p.core, s.batch[0], now); }
  }

  /** For every run, wherever the purges and sweeps fall: every adapter's log of
      written frames, and everything else but the lists, is the same. */
  lemma {:induction false} PurgingIsInvisible(cfg: Config, es: seq<Event>)
    ensures var s, p := Run(Init(cfg), es), PlainRun(Init(cfg), es);
            p == s.(core := p.core) && Alike(s.core, p.core) && p.core.peers == s.core.peers
  {
    if es != [] {
      PurgingIsInvisible(cfg, es[..|es| - 1]);
      Conservation.RunBalance(cfg, es[..|es| - 1]);
      StepAlike(Run(Init(cfg), es[..|es| - 1]), PlainRun(Init(cfg), es[..|es| - 1]), es[|es| - 1]);
    }
  }
}
