/** Order and provenance: packets are handled in arrival order, and every frame that
    was ever written can be traced to the packet that caused it. */
module Causality {
  import opened Wire
  import opened Peers
  import opened Topics
  import opened Registry
  import opened Calls
  import opened Codec
  import opened Broker
  import opened Subscriptions

  function RequestOf(h: seq<Packet>, k: nat): Option<Request> {
    if k >= |h| || h[k].body.None? then None else
    match ParseRequest(h[k].body.value) case Good(r) => Some(r) case _ => None
  }

  /** f is the record of the call packet that was handled as number f.at. */
  predicate ForwardExplained(h: seq<Packet>, f: Forward) {
    match RequestOf(h, f.at)
    case Some(Call(_, _, cliid, _, _)) => h[f.at].from == f.caller && cliid == f.cliid
    case _ => false
  }

  /** One of the packets before number at was this persistent post. */
  predicate PostedBefore(h: seq<Packet>, at: nat, name: string, args: Caps) {
    exists k :: 0 <= k < at && RequestOf(h, k) == Some(Post(PERSIST, name, args))
  }

  /** What justifies a frame in the log of adapter a. */
  predicate Cause(h: seq<Packet>, fw: seq<Forward>, a: Id, x: Sent) {
    match x.frame
    case PostResp(msgtype, name, args, _, _) =>
      (match RequestOf(h, x.at)
       case Some(Post(t, n, d)) => msgtype == t && name == n && args == d
       case Some(Subscribe(n)) => h[x.at].from == a && msgtype == PERSIST && name == n && PostedBefore(h, x.at, name, args)
       case _ => false)
    case CallResp(v, name, args, _, _) =>
      (match RequestOf(h, x.at)
       case Some(Call(n, _, _, _, d)) =>
         1 <= v <= |fw| && fw[v - 1].at == x.at && fw[v - 1].target == a && name == n && args == d
       case _ => false)
    case ReplyResp(k, rescode, resp, _) =>
      if rescode == SUCCESS then
        (match RequestOf(h, x.at)
         case Some(Reply(v, code, values)) =>
           && 1 <= v <= |fw| && fw[v - 1].caller == a && fw[v - 1].cliid == k && fw[v - 1].target == h[x.at].from
           && resp.Some? && resp.value.retCode == code && resp.value.data == values
         case _ => false)
      else if rescode == ENEXISTS then
        (match RequestOf(h, x.at)
         case Some(Call(_, _, cliid, _, _)) => h[x.at].from == a && cliid == k && resp.None?
         case _ => false)
      else rescode == ETIMEOUT && resp.None? && exists i :: 0 <= i < |fw| && fw[i].caller == a && fw[i].cliid == k
    case AuthResp(_, _) =>
      (match RequestOf(h, x.at) case Some(Auth(_, _, _, _)) => h[x.at].from == a case _ => false)
    case Pong => RequestOf(h, x.at) == Some(Ping) && h[x.at].from == a
    case _ => true
  }

  ghost predicate LogsExplained(ps: PeerMap, h: seq<Packet>, fw: seq<Forward>) {
    forall a | a in ps :: forall i | 0 <= i < |ps[a].sent| :: Cause(h, fw, a, ps[a].sent[i])
  }

  predicate CallExplained(fw: seq<Forward>, c: PendingCall) {
    && 1 <= c.svrid <= |fw|
    && fw[c.svrid - 1].caller == c.sender && fw[c.svrid - 1].cliid == c.cliid && fw[c.svrid - 1].target == c.target
  }

  ghost predicate Explained(s: Core, h: seq<Packet>) {
    && LogsExplained(s.peers, h, s.forwards)
    && (forall i | 0 <= i < |s.forwards| :: ForwardExplained(h, s.forwards[i]))
    && (forall i | 0 <= i < |s.calls| :: CallExplained(s.forwards, s.calls[i]))
  }

  /** Stored values stem from posts that were handled. */
  ghost predicate StoredExplained(t: Topics, h: seq<Packet>, at: nat) {
    forall n | n in t.persist :: PostedBefore(h, at, n, t.persist[n])
  }

  // ---- writing a justified frame keeps every log justified ----

  lemma SendExplained(ps: PeerMap, h: seq<Packet>, fw: seq<Forward>, a: Id, at: nat, f: Frame)
    requires LogsExplained(ps, h, fw)
    requires forall net :: Cause(h, fw, a, Sent(at, net, f))
    ensures LogsExplained(Send(ps, a, at, f), h, fw)
  {}

  lemma BroadcastExplained(ps: PeerMap, h: seq<Packet>, fw: seq<Forward>, to: set<Id>, at: nat, f: Frame,
                           fits: (Frame, bool) -> bool)
    requires LogsExplained(ps, h, fw)
    requires forall a, net :: Cause(h, fw, a, Sent(at, net, f))
    ensures LogsExplained(Broadcast(ps, to, at, f, fits), h, fw)
  {}

  lemma HistoryGrows(ps: PeerMap, h: seq<Packet>, fw: seq<Forward>, h': seq<Packet>, fw': seq<Forward>)
    requires LogsExplained(ps, h, fw) && h <= h' && fw <= fw'
    ensures LogsExplained(ps, h', fw')
  {
    forall a, i | a in ps && 0 <= i < |ps[a].sent| ensures Cause(h', fw', a, ps[a].sent[i]) {
      CauseGrows(h, fw, h', fw', a, ps[a].sent[i]);
    }
  }

  lemma CauseGrows(h: seq<Packet>, fw: seq<Forward>, h': seq<Packet>, fw': seq<Forward>, a: Id, x: Sent)
    requires Cause(h, fw, a, x) && h <= h' && fw <= fw'
    ensures Cause(h', fw', a, x)
  {
    var f := x.frame;
    if f.PostResp? {
      assert RequestOf(h', x.at) == RequestOf(h, x.at);
      if RequestOf(h, x.at).value.Subscribe? { PostedLater(h, x.at, h', x.at, f.name, f.args); }
    }
  }

  lemma PostedLater(h: seq<Packet>, at: nat, h': seq<Packet>, at': nat, name: string, args: Caps)
    requires PostedBefore(h, at, name, args) && h <= h' && at <= at'
    ensures PostedBefore(h', at', name, args)
  {
    var k :| 0 <= k < at && RequestOf(h, k) == Some(Post(PERSIST, name, args));
    assert RequestOf(h', k) == RequestOf(h, k);
  }

  // ---- handlers ----

  lemma AuthExplained(s: Core, h: seq<Packet>, a: Id, r: Request)
    requires Explained(s, h) && s.step < |h| && h[s.step].from == a
    requires r.Auth? && RequestOf(h, s.step) == Some(r)
    ensures Explained(HandleAuth(s, a, r).core, h)
  {
    var s1 := Enroll(s, a, r);
    assert LogsExplained(s1.peers, h, s1.forwards);
    var f := AuthResp(AuthResult(s, r), FLORA_VERSION);
    SendExplained(s1.peers, h, s1.forwards, a, s.step, f);
    var s2 := SendTo(s1, a, f);
    var all := MonitorAll(Items(s2.reg.infos));
    SendExplained(s2.peers, h, s2.forwards, a, s.step, all);
    if Lookup(s2.reg, a).Some? {
      var add := MonitorAdd(ToItem(Lookup(s2.reg, a).value));
      BroadcastExplained(s2.peers, h, s2.forwards, s2.reg.monitors.Keys, s.step, add, s.cfg.fits);
    }
  }

  lemma SubscribeExplained(s: Core, h: seq<Packet>, a: Id, name: string)
    requires Explained(s, h) && s.step < |h| && h[s.step].from == a
    requires RequestOf(h, s.step) == Some(Subscribe(name)) && StoredExplained(s.topics, h, s.step)
    ensures Explained(HandleSubscribe(s, a, name).core, h)
  {
    if name in s.topics.persist {
      SendExplained(s.peers, h, s.forwards, a, s.step, PostResp(PERSIST, name, s.topics.persist[name], 0, ""));
    }
  }

  lemma PostExplained(s: Core, h: seq<Packet>, a: Id, t: uint32, name: string, args: Caps)
    requires Explained(s, h)
    requires RequestOf(h, s.step) == Some(Post(t, name, args))
    ensures Explained(HandlePost(s, a, t, name, args).core, h)
  {
    var f := PostResp(t, name, args, TagOf(s, a), NameOf(s.reg, a));
    BroadcastExplained(s.peers, h, s.forwards, Audience(s.topics, name), s.step, f, s.cfg.fits);
  }

  lemma CallHandlerExplained(s: Core, h: seq<Packet>, a: Id, r: Request, now: int)
    requires Explained(s, h) && s.step < |h| && h[s.step].from == a
    requires r.Call? && RequestOf(h, s.step) == Some(r)
    ensures Explained(HandleCall(s, a, r, now).core, h)
  {
    match Callee(s, r.target, r.name)
    case None => SendExplained(s.peers, h, s.forwards, a, s.step, ReplyResp(r.cliid, ENEXISTS, None, 0));
    case Some(t) =>
      var fw := s.forwards + [Forward(s.step, a, r.cliid, t)];
      HistoryGrows(s.peers, h, s.forwards, h, fw);
      var f := CallResp(|fw|, r.name, r.args, TagOf(s, a), NameOf(s.reg, a));
      SendExplained(s.peers, h, fw, t, s.step, f);
      assert ForwardExplained(h, fw[|fw| - 1]);
      WaitingExplained(s, fw, PendingCall(|fw|, r.cliid, a, t, Deadline(now, r.timeout)));
  }

  lemma WaitingExplained(s: Core, fw: seq<Forward>, c: PendingCall)
    requires (forall i | 0 <= i < |s.calls| :: CallExplained(s.forwards, s.calls[i])) && s.forwards <= fw && CallExplained(fw, c)
    ensures forall i | 0 <= i < |Insert(s.calls, c)| :: CallExplained(fw, Insert(s.calls, c)[i])
  {}

  lemma ReplyExplained(s: Core, h: seq<Packet>, a: Id, r: Request)
    requires Explained(s, h) && s.step < |h| && h[s.step].from == a
    requires r.Reply? && RequestOf(h, s.step) == Some(r)
    ensures Explained(HandleReply(s, a, r).core, h)
  {
    var i := Find(s.calls, r.svrid, a);
    if i < |s.calls| {
      var c := s.calls[i];
      var f := ReplyResp(c.cliid, SUCCESS, Some(Response(r.code, r.values, NameOf(s.reg, a))), TagOf(s, a));
      ReplyJustified(h, s.forwards, c, a, r, s.step, f);
      SendExplained(s.peers, h, s.forwards, c.sender, s.step, f);
      StillWaitingExplained(s.forwards, s.calls, i);
    }
  }

  /** A reply of the call's own target justifies the frame for the caller. */
  lemma ReplyJustified(h: seq<Packet>, fw: seq<Forward>, c: PendingCall, a: Id, r: Request, at: nat, f: Frame)
    requires r.Reply? && RequestOf(h, at) == Some(r) && at < |h| && h[at].from == a
    requires CallExplained(fw, c) && Matches(c, r.svrid, a) && f.ReplyResp? && f.cliid == c.cliid && f.rescode == SUCCESS
    requires f.resp.Some? && f.resp.value.retCode == r.code && f.resp.value.data == r.values
    ensures forall net :: Cause(h, fw, c.sender, Sent(at, net, f))
  {}

  lemma StillWaitingExplained(fw: seq<Forward>, l: seq<PendingCall>, i: nat)
    requires i < |l| && forall j | 0 <= j < |l| :: CallExplained(fw, l[j])
    ensures forall j | 0 <= j < |RemoveAt(l, i)| :: CallExplained(fw, RemoveAt(l, i)[j])
  {}

  lemma RequestExplained(s: Core, h: seq<Packet>, a: Id, r: Request, now: int)
    requires Explained(s, h) && s.step < |h| && h[s.step].from == a
    requires RequestOf(h, s.step) == Some(r) && StoredExplained(s.topics, h, s.step)
    ensures Explained(HandleRequest(s, a, r, now).core, h)
  {
    if r.Auth? { AuthExplained(s, h, a, r); }
    else if a in s.reg.infos {
      match r
      case Subscribe(name) => SubscribeExplained(s, h, a, name);
      case Post(t, name, args) => PostExplained(s, h, a, t, name, args);
      case Call(_, _, _, _, _) => CallHandlerExplained(s, h, a, r, now);
      case Reply(_, _, _) => ReplyExplained(s, h, a, r);
      case Ping => SendExplained(s.peers, h, s.forwards, a, s.step, Pong);
      case _ =>
    }
  }

  lemma EraseExplained(s: Core, h: seq<Packet>, a: Id, now: int)
    requires Explained(s, h)
    ensures Explained(DoErase(s, a, now), h)
  {}

  lemma HandleExplained(s: Core, h: seq<Packet>, p: Packet, now: int)
    requires Explained(s, h) && s.step == |h| && StoredExplained(s.topics, h, |h|)
    ensures Explained(Handle(s, p, now), h + [p])
  {
    var h' := h + [p];
    HistoryGrows(s.peers, h, s.forwards, h', s.forwards);
    StoredLater(s.topics, h, h', |h|);
    forall i | 0 <= i < |s.forwards| ensures ForwardExplained(h', s.forwards[i]) {
      assert ForwardExplained(h, s.forwards[i]);
    }
    if p.body.None? {
      EraseExplained(s, h', p.from, now);
    } else if p.from !in s.reg.monitors && ParseRequest(p.body.value).Good? {
      RequestExplained(s, h', p.from, ParseRequest(p.body.value).req, now);
    }
  }

  lemma StoredLater(t: Topics, h: seq<Packet>, h': seq<Packet>, at: nat)
    requires StoredExplained(t, h, |h|) && h <= h' && |h| <= at
    ensures StoredExplained(t, h', at)
  {
    forall n | n in t.persist ensures PostedBefore(h', at, n, t.persist[n]) {
      PostedLater(h, |h|, h', at, n, t.persist[n]);
    }
  }

  lemma HandleStored(s: Core, h: seq<Packet>, p: Packet, now: int)
    requires StoredExplained(s.topics, h, |h|)
    ensures StoredExplained(Handle(s, p, now).topics, h + [p], |h| + 1)
  {
    HandleTopics(s, p, now);
    StoredLater(s.topics, h, h + [p], |h| + 1);
    assert Content(p).Good? ==> RequestOf(h + [p], |h|) == Some(Content(p).req);
  }

  lemma {:induction false} TimeOutExplained(s: Core, h: seq<Packet>, n: nat)
    requires Explained(s, h) && n <= |s.calls|
    ensures LogsExplained(TimeOut(s.peers, s.calls, s.step, n), h, s.forwards)
  {
    if n > 0 {
      TimeOutExplained(s, h, n - 1);
      var c := s.calls[n - 1];
      TimeOutJustified(h, s.forwards, c, s.step);
      SendExplained(TimeOut(s.peers, s.calls, s.step, n - 1), h, s.forwards, c.sender, s.step,
                    ReplyResp(c.cliid, ETIMEOUT, None, 0));
    }
  }

  lemma TimeOutJustified(h: seq<Packet>, fw: seq<Forward>, c: PendingCall, at: nat)
    requires CallExplained(fw, c)
    ensures forall net :: Cause(h, fw, c.sender, Sent(at, net, ReplyResp(c.cliid, ETIMEOUT, None, 0)))
  {
    assert fw[c.svrid - 1].caller == c.sender;
  }

  lemma StepExplained(s: State, e: Event)
    requires Explained(s.core, s.handled) && s.core.step == |s.handled|
    requires StoredExplained(s.core.topics, s.handled, |s.handled|)
    ensures Explained(Step(s, e).core, Step(s, e).handled)
    ensures StoredExplained(Step(s, e).core.topics, Step(s, e).handled, |Step(s, e).handled|)
  {
    match e
    case Tick(now) => TimeOutExplained(s.core, s.handled, Overdue(s.core.calls, now));
    case Next(now) =>
      if s.batch != [] {
        HandleExplained(s.core, s.handled, s.batch[0], now);
        HandleStored(s.core, s.handled, s.batch[0], now);
      }
    case _ =>
  }

  // ---- arrival order ----

  ghost predicate Fifo(s: State) {
    s.handled + s.batch + s.queue == s.arrived && s.core.step == |s.handled|
  }

  lemma StepFifo(s: State, e: Event)
    requires Fifo(s)
    ensures Fifo(Step(s, e))
  {}

  /** Nothing is lost, duplicated or reordered between the poll and the handlers, and
      every frame in every log has its cause. */
  lemma {:induction false} RunExplained(cfg: Config, es: seq<Event>)
    ensures var s := Run(Init(cfg), es);
            Fifo(s) && Explained(s.core, s.handled) && StoredExplained(s.core.topics, s.handled, |s.handled|)
  {
    if es != [] {
      var n := |es| - 1;
      RunExplained(cfg, es[..n]);
      StepFifo(Run(Init(cfg), es[..n]), es[n]);
      StepExplained(Run(Init(cfg), es[..n]), es[n]);
    }
  }
}
