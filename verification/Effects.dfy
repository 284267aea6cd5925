/** What each packet does to the logs and tables, stated from the fields of the request
    and the tables alone. */
module Effects {
  import opened Wire
  import opened Codec
  import opened Peers
  import opened Topics
  import opened Registry
  import opened Calls
  import opened Broker
  import opened Quiet
  import opened Subscriptions

  /** Between ps and qs at most one adapter changed. */
  ghost predicate Others(ps: PeerMap, qs: PeerMap, a: Id) {
    qs.Keys == ps.Keys && forall x | x in ps && x != a :: qs[x] == ps[x]
  }

  /** One frame more in the log of one open adapter, in its own byte order, or that adapter
      closed because its socket took no more; nothing else. */
  ghost predicate Written(ps: PeerMap, qs: PeerMap, a: Id, at: nat, f: Frame) {
    && Others(ps, qs, a)
    && (a in ps && !ps[a].open ==> qs[a] == ps[a])
    && (a in ps && ps[a].open && ps[a].room == 0 ==> qs[a] == ps[a].(open := false))
    && (a in ps && ps[a].open && ps[a].room > 0 ==>
          qs[a] == ps[a].(room := ps[a].room - 1, sent := ps[a].sent + [Sent(at, ps[a].net, f)]))
  }

  /** One adapter closed; nothing else. */
  ghost predicate Closed(ps: PeerMap, qs: PeerMap, a: Id) {
    Others(ps, qs, a) && (a in ps ==> qs[a] == ps[a].(open := false))
  }

  /** A frame is written to b if it fits in b's byte order; otherwise the sender a is closed. */
  ghost predicate WrittenOrClosed(s: Core, qs: PeerMap, b: Id, f: Frame, a: Id) {
    if b in s.peers && s.cfg.fits(f, s.peers[b].net) then Written(s.peers, qs, b, s.step, f) else Closed(s.peers, qs, a)
  }

  /** The sender is a registered client. */
  predicate IsClient(s: Core, a: Id) { a in s.peers && a in s.reg.infos && a !in s.reg.monitors }

  predicate Requests(p: Packet, r: Request) { Content(p) == Good(r) }

  /** The methods of a connection, as the registry has them. */
  function MethodsOf(r: Registry, a: Id): set<string> {
    if a in r.monitors then r.monitors[a].methods else if a in r.infos then r.infos[a].methods else {}
  }

  /** A name is bound to a connection that has the method. */
  predicate Callable(r: Registry, target: string, name: string) {
    target in r.named && name in MethodsOf(r, r.named[target])
  }

  lemma SendWrites(ps: PeerMap, a: Id, at: nat, f: Frame)
    ensures Written(ps, Send(ps, a, at, f), a, at, f)
  {}

  lemma ShutCloses(ps: PeerMap, a: Id)
    ensures Closed(ps, Shut(ps, a), a)
  {}

  /** A client's request goes to its handler, and failure closes the client. */
  lemma Handled(s: Core, p: Packet, now: int, r: Request)
    requires p.from !in s.reg.monitors && Requests(p, r)
    ensures var o, s' := HandleRequest(s, p.from, r, now), Handle(s, p, now);
            && s'.peers == (if o.ok then o.core.peers else Shut(o.core.peers, p.from))
            && s'.topics == o.core.topics && s'.reg == o.core.reg && s'.calls == o.core.calls && s'.forwards == o.core.forwards
  {}

  // ---- calls ----

  /** A call to a connection that has the method: the target is written the call under the
      next server id, with the caller's tag and name, and a call waits that is due after
      the timeout, 200 ms if none was given. If the frame does not fit the caller is closed
      and the call waits all the same. */
  lemma CallReaches(s: Core, p: Packet, now: int, r: Request)
    requires IsClient(s, p.from) && r.Call? && Requests(p, r) && Callable(s.reg, r.target, r.name)
    ensures var s', t, v := Handle(s, p, now), s.reg.named[r.target], |s.forwards| + 1;
            && WrittenOrClosed(s, s'.peers, t, CallResp(v, r.name, r.args, s.peers[p.from].tag, s.reg.infos[p.from].name), p.from)
            && s'.forwards == s.forwards + [Forward(s.step, p.from, r.cliid, t)]
            && multiset(s'.calls) == multiset(s.calls) +
               multiset{PendingCall(v, r.cliid, p.from, t, now + if r.timeout == 0 then 200 else r.timeout)}
            && s'.topics == s.topics && s'.reg == s.reg
  {
    var t := s.reg.named[r.target];
    var f := CallResp(|s.forwards| + 1, r.name, r.args, s.peers[p.from].tag, s.reg.infos[p.from].name);
    Handled(s, p, now, r);
    CallForwarded(s, p.from, r, now, f);
    InsertAdds(s.calls, PendingCall(|s.forwards| + 1, r.cliid, p.from, t, Deadline(now, r.timeout)));
    SendWrites(s.peers, t, s.step, f);
    ShutCloses(s.peers, p.from);
  }

  lemma CallForwarded(s: Core, a: Id, r: Request, now: int, f: Frame)
    requires IsClient(s, a) && r.Call? && Callable(s.reg, r.target, r.name)
    requires f == CallResp(|s.forwards| + 1, r.name, r.args, s.peers[a].tag, s.reg.infos[a].name)
    ensures var o, t := HandleCall(s, a, r, now), s.reg.named[r.target];
            && o.ok == Fits(s, t, f)
            && o.core == s.(peers := if o.ok then Send(s.peers, t, s.step, f) else s.peers,
                            calls := Insert(s.calls, PendingCall(|s.forwards| + 1, r.cliid, a, t, Deadline(now, r.timeout))),
                            forwards := s.forwards + [Forward(s.step, a, r.cliid, t)])
  {
    Found(s, r);
    assert TagOf(s, a) == s.peers[a].tag && NameOf(s.reg, a) == s.reg.infos[a].name;
  }

  lemma Found(s: Core, r: Request)
    requires r.Call?
    ensures Callee(s, r.target, r.name) == if Callable(s.reg, r.target, r.name) then Some(s.reg.named[r.target]) else None
  {}

  /** A call to anybody else is answered ENEXISTS at once. */
  lemma CallRefused(s: Core, p: Packet, now: int, r: Request)
    requires IsClient(s, p.from) && r.Call? && Requests(p, r) && !Callable(s.reg, r.target, r.name)
    ensures var s' := Handle(s, p, now);
            && WrittenOrClosed(s, s'.peers, p.from, ReplyResp(r.cliid, ENEXISTS, None, 0), p.from)
            && s'.forwards == s.forwards && s'.calls == s.calls && s'.topics == s.topics && s'.reg == s.reg
  {
    Handled(s, p, now, r);
    Found(s, r);
    SendWrites(s.peers, p.from, s.step, ReplyResp(r.cliid, ENEXISTS, None, 0));
    ShutCloses(s.peers, p.from);
  }

  /** The reply of the target of a waiting call: an open caller is written code and data
      with the target's tag and name, under its own number, and the call is over. If the
      frame does not fit the target is closed and the call waits on; if the caller is
      closed nothing happens. */
  lemma ReplyReaches(s: Core, p: Packet, now: int, r: Request, i: nat)
    requires IsClient(s, p.from) && r.Reply? && Requests(p, r)
    requires Distinct(s.calls) && i < |s.calls| && s.calls[i].svrid == r.svrid && s.calls[i].target == p.from
    ensures var s', c := Handle(s, p, now), s.calls[i];
            var f := ReplyResp(c.cliid, SUCCESS, Some(Response(r.code, r.values, s.reg.infos[p.from].name)), s.peers[p.from].tag);
            && (if IsOpen(s.peers, c.sender) then WrittenOrClosed(s, s'.peers, c.sender, f, p.from) else s'.peers == s.peers)
            && s'.calls == (if IsOpen(s.peers, c.sender) && s.cfg.fits(f, s.peers[c.sender].net)
                            then s.calls[..i] + s.calls[i + 1..] else s.calls)
            && s'.forwards == s.forwards && s'.topics == s.topics && s'.reg == s.reg
  {
    var c := s.calls[i];
    var f := ReplyResp(c.cliid, SUCCESS, Some(Response(r.code, r.values, s.reg.infos[p.from].name)), s.peers[p.from].tag);
    Handled(s, p, now, r);
    FoundCall(s.calls, i, r.svrid, p.from);
    assert TagOf(s, p.from) == s.peers[p.from].tag && NameOf(s.reg, p.from) == s.reg.infos[p.from].name;
    SendWrites(s.peers, c.sender, s.step, f);
    ShutCloses(s.peers, p.from);
  }

  lemma FoundCall(l: seq<PendingCall>, i: nat, svrid: int, target: Id)
    requires Distinct(l) && i < |l| && l[i].svrid == svrid && l[i].target == target
    ensures Find(l, svrid, target) == i
  {}

  /** A reply to no waiting call of the sender is ignored. */
  lemma ReplyIgnored(s: Core, p: Packet, now: int, r: Request)
    requires IsClient(s, p.from) && r.Reply? && Requests(p, r)
    requires forall i | 0 <= i < |s.calls| :: s.calls[i].svrid != r.svrid || s.calls[i].target != p.from
    ensures Handle(s, p, now) == s.(lastCmd := now, step := s.step + 1)
  {
    assert Find(s.calls, r.svrid, p.from) == |s.calls|;
  }

  lemma PingAnswered(s: Core, p: Packet, now: int)
    requires IsClient(s, p.from) && Requests(p, Ping)
    ensures var s' := Handle(s, p, now);
            WrittenOrClosed(s, s'.peers, p.from, Pong, p.from) && s' == s.(peers := s'.peers, lastCmd := now, step := s.step + 1)
  {
    SendWrites(s.peers, p.from, s.step, Pong);
    ShutCloses(s.peers, p.from);
  }

  // ---- methods ----

  /** A declaration adds the method to the sender and to nobody else; one that the sender
      has already, or without a name, closes the sender and changes no table. */
  lemma DeclareAdds(s: Core, p: Packet, now: int, m: string)
    requires IsClient(s, p.from) && Requests(p, DeclareMethod(m))
    ensures var s', had := Handle(s, p, now), m == "" || m in s.reg.infos[p.from].methods;
            && (if had then Closed(s.peers, s'.peers, p.from) && s'.reg == s.reg
                else s'.peers == s.peers && MethodsSet(s.reg, s'.reg, p.from, s.reg.infos[p.from].methods + {m}))
            && s'.topics == s.topics && s'.calls == s.calls && s'.forwards == s.forwards
  {
    Handled(s, p, now, DeclareMethod(m));
    ShutCloses(s.peers, p.from);
    var i := s.reg.infos[p.from];
    if m in i.methods {
      assert i.methods + {m} == i.methods;
      assert s.reg.infos[p.from := i] == s.reg.infos;
    }
  }

  /** A removal takes the method from the sender and from nobody else. */
  lemma RemoveTakes(s: Core, p: Packet, now: int, m: string)
    requires IsClient(s, p.from) && Requests(p, RemoveMethod(m))
    ensures var s' := Handle(s, p, now);
            && (if m == "" then Closed(s.peers, s'.peers, p.from) && s'.reg == s.reg
                else s'.peers == s.peers && MethodsSet(s.reg, s'.reg, p.from, s.reg.infos[p.from].methods - {m}))
            && s'.topics == s.topics && s'.calls == s.calls && s'.forwards == s.forwards
  {
    Handled(s, p, now, RemoveMethod(m));
    ShutCloses(s.peers, p.from);
  }

  /** The registry differs in the methods of one client. */
  ghost predicate MethodsSet(r: Registry, r': Registry, a: Id, methods: set<string>) {
    && r'.named == r.named && r'.monitors == r.monitors && r'.idseq == r.idseq && r'.infos.Keys == r.infos.Keys
    && (forall b | b in r.infos && b != a :: r'.infos[b] == r.infos[b])
    && a in r.infos && r'.infos[a] == Info(r.infos[a].id, r.infos[a].pid, r.infos[a].name, methods, r.infos[a].flags)
  }

  // ---- auth ----

  /** The code an auth request deserves. */
  function Verdict(s: Core, r: Request): int
    requires r.Auth?
  {
    if r.version < 3 || (r.flags % 2 == 1 && !s.cfg.monitorMode) then EAUTH
    else if r.flags % 2 == 0 && r.extra != "" && r.extra in s.reg.named then EDUPID
    else SUCCESS
  }

  lemma VerdictGiven(s: Core, r: Request)
    requires r.Auth?
    ensures AuthResult(s, r) == Verdict(s, r)
  {}

  /** The answer to an auth is its verdict, in the log of an open sender whose socket takes
      it; a client is sent nothing else. */
  lemma AuthAnswered(s: Core, p: Packet, now: int, r: Request)
    requires p.from in s.peers && p.from !in s.reg.monitors && r.Auth? && Requests(p, r)
    ensures p.from in Handle(s, p, now).peers
    ensures var q, q', f := s.peers[p.from], Handle(s, p, now).peers[p.from], AuthResp(Verdict(s, r), 4);
            if q.open && q.room > 0 && s.cfg.fits(f, q.net) then
              && q.sent + [Sent(s.step, q.net, f)] <= q'.sent
              && (r.flags % 2 == 0 ==> q'.sent == q.sent + [Sent(s.step, q.net, f)])
              && (r.flags % 2 == 0 && Verdict(s, r) == SUCCESS ==> q'.open)
            else q'.sent == q.sent
  {
    var a, q, f := p.from, s.peers[p.from], AuthResp(Verdict(s, r), FLORA_VERSION);
    AuthHandled(s, p, now);
    VerdictGiven(s, r);
    EnrollPeers(s, a, r, a);
    var s1 := Enroll(s, a, r);
    var s2 := SendTo(s1, a, f);
    SendWrites(s1.peers, a, s.step, f);
    AnnounceToSelf(s2, a, r.flags);
    EnrolledClient(s, a, r);
  }

  lemma EnrolledClient(s: Core, a: Id, r: Request)
    requires r.Auth? && a !in s.reg.monitors
    ensures r.flags % 2 == 0 ==> a !in Enroll(s, a, r).reg.monitors
  {}

  /** What the sender of an auth gets after the answer. */
  lemma AnnounceToSelf(s: Core, a: Id, flags: uint32)
    requires a in s.peers
    ensures var q' := Announce(s, a, flags).peers;
            && a in q' && s.peers[a].sent <= q'[a].sent && q'[a].tag == s.peers[a].tag
            && (!s.peers[a].open || (flags % 2 == 0 && a !in s.reg.monitors) ==> q'[a] == s.peers[a])
  {}

  /** An auth that fails, or whose answer does not fit, closes its sender and concerns no
      other connection; one that fails leaves the registry alone. */
  lemma AuthCloses(s: Core, p: Packet, now: int, r: Request)
    requires p.from in s.peers && p.from !in s.reg.monitors && r.Auth? && Requests(p, r)
    requires Verdict(s, r) != SUCCESS || !s.cfg.fits(AuthResp(SUCCESS, 4), s.peers[p.from].net)
    ensures var s' := Handle(s, p, now);
            && Others(s.peers, s'.peers, p.from) && !s'.peers[p.from].open
            && (Verdict(s, r) != SUCCESS ==> s'.reg == s.reg)
  {
    var s1, f := Enroll(s, p.from, r), AuthResp(AuthResult(s, r), FLORA_VERSION);
    AuthHandled(s, p, now);
    VerdictGiven(s, r);
    AuthFails(s, p.from, r);
    EnrollOthers(s, p.from, r);
    SendWrites(s1.peers, p.from, s.step, f);
  }

  lemma AuthFails(s: Core, a: Id, r: Request)
    requires r.Auth? && a in s.peers
    requires AuthResult(s, r) != SUCCESS || !s.cfg.fits(AuthResp(SUCCESS, FLORA_VERSION), s.peers[a].net)
    ensures var o, s1 := HandleAuth(s, a, r), Enroll(s, a, r);
            && !o.ok && o.core.reg == s1.reg
            && (o.core.peers == s1.peers || o.core.peers == Send(s1.peers, a, s.step, AuthResp(AuthResult(s, r), FLORA_VERSION)))
  {
    EnrollPeers(s, a, r, a);
  }

  lemma EnrollOthers(s: Core, a: Id, r: Request)
    requires r.Auth?
    ensures Others(s.peers, Enroll(s, a, r).peers, a) && (AuthResult(s, r) != SUCCESS ==> Enroll(s, a, r).reg == s.reg)
  {}

  /** An auth that succeeds registers its sender: as a client, its name bound and, if it is
      new, with a fresh id, what it says of itself and no methods; or as a monitor. */
  lemma AuthRegisters(s: Core, p: Packet, now: int, r: Request)
    requires p.from in s.peers && p.from !in s.reg.monitors && r.Auth? && Requests(p, r) && Verdict(s, r) == SUCCESS
    ensures var g, g', a := s.reg, Handle(s, p, now).reg, p.from;
            if r.flags % 2 == 1 then
              && g'.named == g.named && g'.infos == g.infos && g'.monitors.Keys == g.monitors.Keys + {a}
              && g'.monitors[a].name == r.extra && forall b | b in g.monitors :: g'.monitors[b] == g.monitors[b]
            else
              && g'.monitors == g.monitors && g'.infos.Keys == g.infos.Keys + {a}
              && (forall b | b in g.infos :: g'.infos[b] == g.infos[b])
              && (a !in g.infos ==> g'.infos[a] == Info(g.idseq + 1, r.pid, r.extra, {}, r.flags))
              && g'.named == if r.extra == "" then g.named else g.named[r.extra := a]
  {
    AuthHandled(s, p, now);
    VerdictGiven(s, r);
    AuthEnrolls(s, p.from, r);
  }

  /** A sender without a tag gets its pid, as an unsigned number, for one; a tag stays. */
  lemma AuthTags(s: Core, p: Packet, now: int, r: Request)
    requires p.from in s.peers && p.from !in s.reg.monitors && r.Auth? && Requests(p, r)
    ensures p.from in Handle(s, p, now).peers
    ensures Handle(s, p, now).peers[p.from].tag ==
            if s.peers[p.from].tag == 0 && r.version >= 3 then r.pid % 0x1_0000_0000 else s.peers[p.from].tag
  {
    var a, f := p.from, AuthResp(AuthResult(s, r), FLORA_VERSION);
    AuthHandled(s, p, now);
    EnrollTag(s, a, r);
    var s1 := Enroll(s, a, r);
    SendWrites(s1.peers, a, s.step, f);
    AnnounceToSelf(SendTo(s1, a, f), a, r.flags);
  }

  lemma EnrollTag(s: Core, a: Id, r: Request)
    requires r.Auth? && a in s.peers
    ensures a in Enroll(s, a, r).peers
    ensures Enroll(s, a, r).peers[a].tag ==
            if s.peers[a].tag == 0 && r.version >= 3 then r.pid % 0x1_0000_0000 else s.peers[a].tag
  {}

  // ---- everybody else ----

  /** Whatever a monitor or an unregistered connection sends, other than an auth of the
      latter, closes it and does nothing else; so does what is not a request. */
  lemma StrangerClosed(s: Core, p: Packet, now: int)
    requires p.body.Some?
    requires p.from in s.reg.monitors || !Content(p).Good? || (p.from !in s.reg.infos && !Content(p).req.Auth?)
    ensures var s' := Handle(s, p, now);
            && Closed(s.peers, s'.peers, p.from)
            && s'.topics == s.topics && s'.reg == s.reg && s'.calls == s.calls && s'.forwards == s.forwards
  {
    ShutCloses(s.peers, p.from);
  }

  // ---- posts ----

  /** A valid post of a client: whoever is open, subscribed and has a byte order in which
      the frame fits is written the message with the sender's tag and name, or closed if
      its socket takes no more; nobody else is touched. */
  lemma PostReaches(s: Core, p: Packet, now: int, r: Request, x: Id)
    requires IsClient(s, p.from) && r.Post? && Requests(p, r) && r.msgtype < 2 && r.name != "" && x in s.peers
    ensures var s', q := Handle(s, p, now), s.peers[x];
            var f := PostResp(r.msgtype, r.name, r.args, s.peers[p.from].tag, s.reg.infos[p.from].name);
            && s'.peers.Keys == s.peers.Keys
            && s'.peers[x] == (if x !in Subscribers(s.topics, r.name) || !q.open || !s.cfg.fits(f, q.net) then q
                               else if q.room == 0 then q.(open := false)
                               else q.(room := q.room - 1, sent := q.sent + [Sent(s.step, q.net, f)]))
            && s'.topics.persist == (if r.msgtype == 1 then s.topics.persist[r.name := r.args] else s.topics.persist)
            && s'.reg == s.reg && s'.calls == s.calls && s'.forwards == s.forwards
  {
    Handled(s, p, now, r);
    assert TagOf(s, p.from) == s.peers[p.from].tag && NameOf(s.reg, p.from) == s.reg.infos[p.from].name;
  }

  /** A post of another type or without a name closes its sender and does nothing else. */
  lemma PostRefused(s: Core, p: Packet, now: int, r: Request)
    requires IsClient(s, p.from) && r.Post? && Requests(p, r) && (r.msgtype >= 2 || r.name == "")
    ensures var s' := Handle(s, p, now); Closed(s.peers, s'.peers, p.from) && s' == s.(peers := s'.peers, lastCmd := now, step := s.step + 1)
  {
    ShutCloses(s.peers, p.from);
  }

  // ---- departures ----

  /** A departure of a registered connection sweeps all lists if it is the fiftieth since
      the last sweep or comes ten seconds after the last request: what is left of each list
      is what has not expired, in order. Otherwise it counts. */
  lemma DepartureSweeps(s: Core, p: Packet, now: int, n: string)
    requires p.body.None? && (p.from in s.reg.infos || p.from in s.reg.monitors)
    ensures var s', due := Handle(s, p, now), now - s.lastCmd >= 10000 || s.prio + 1 >= 50;
            && Subscribers(s'.topics, n) ==
               (if due then Keep(Subscribers(s.topics, n), set x | x in s.peers && !s.peers[x].gone) else Subscribers(s.topics, n))
            && s'.topics.persist == s.topics.persist
            && s'.prio == (if due then 0 else s.prio + 1) && s'.lastCmd == (if due then now else s.lastCmd)
  {
    HandleTopics(s, p, now);
    SweepExact(s.topics, LiveSet(s.peers), n);
    assert LiveSet(s.peers) == set x | x in s.peers && !s.peers[x].gone;
  }
}
