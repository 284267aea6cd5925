/** Call conservation: requests, waiting calls and replies balance on every
    connection. */
module Conservation {
  import opened Wire
  import opened Peers
  import opened Registry
  import opened Calls
  import opened Codec
  import opened Broker
  import opened Quiet

  predicate Asks(p: Packet, a: Id, k: int) {
    p.from == a && Content(p).Good? && Content(p).req.Call? && Content(p).req.cliid == k
  }

  /** Call requests with client id k that were handled for adapter a. */
  function Asked(h: seq<Packet>, a: Id, k: int): nat {
    if h == [] then 0 else Asked(h[..|h| - 1], a, k) + if Asks(h[|h| - 1], a, k) then 1 else 0
  }

  function ReplyTo(k: int): Kind { (f: Frame) => f.ReplyResp? && f.cliid == k }

  /** Replies to client id k in a log, whatever their code. */
  function Answered(sent: seq<Sent>, k: int): nat { |Select(sent, ReplyTo(k))| }

  /** Calls of adapter a with client id k that still wait. */
  function Waiting(l: seq<PendingCall>, a: Id, k: int): nat {
    if l == [] then 0 else (if l[0].sender == a && l[0].cliid == k then 1 else 0) + Waiting(l[1..], a, k)
  }

  /** The balance of one adapter: exact while it is open, never in debt after. */
  predicate Balanced(ps: PeerMap, l: seq<PendingCall>, h: seq<Packet>, a: Id, k: int) {
    if a in ps then
      && Answered(ps[a].sent, k) + Waiting(l, a, k) <= Asked(h, a, k)
      && (ps[a].open ==> Answered(ps[a].sent, k) + Waiting(l, a, k) == Asked(h, a, k))
    else Waiting(l, a, k) == 0 && Asked(h, a, k) == 0
  }

  ghost predicate Balance(ps: PeerMap, l: seq<PendingCall>, h: seq<Packet>) {
    forall a, k :: Balanced(ps, l, h, a, k)
  }

  // ---- counting ----

  lemma {:induction false} WaitingAppend(l: seq<PendingCall>, m: seq<PendingCall>, a: Id, k: int)
    ensures Waiting(l + m, a, k) == Waiting(l, a, k) + Waiting(m, a, k)
  {
    if l == [] {
      assert l + m == m;
    } else {
      WaitingAppend(l[1..], m, a, k);
      assert (l + m)[1..] == l[1..] + m;
    }
  }

  lemma WaitingOne(c: PendingCall, a: Id, k: int)
    ensures Waiting([c], a, k) == if c.sender == a && c.cliid == k then 1 else 0
  {}

  lemma WaitingInsert(l: seq<PendingCall>, c: PendingCall, a: Id, k: int)
    ensures Waiting(Insert(l, c), a, k) == Waiting(l, a, k) + Waiting([c], a, k)
  {
    var i := Slot(l, c.deadline);
    WaitingAppend(l[..i] + [c], l[i..], a, k);
    WaitingAppend(l[..i], [c], a, k);
    WaitingAppend(l[..i], l[i..], a, k);
    assert l == l[..i] + l[i..];
  }

  lemma WaitingRemove(l: seq<PendingCall>, i: nat, a: Id, k: int)
    requires i < |l|
    ensures Waiting(l, a, k) == Waiting(RemoveAt(l, i), a, k) + Waiting([l[i]], a, k)
  {
    WaitingAppend(l[..i], l[i..], a, k);
    WaitingAppend([l[i]], l[i + 1..], a, k);
    WaitingAppend(l[..i], l[i + 1..], a, k);
    assert l == l[..i] + l[i..] && l[i..] == [l[i]] + l[i + 1..];
  }

  lemma AskedMore(h: seq<Packet>, p: Packet, a: Id, k: int)
    ensures Asked(h + [p], a, k) == Asked(h, a, k) + if Asks(p, a, k) then 1 else 0
  {}

  /** If no reply was written and adapters at most closed, the balance stands. */
  lemma StillBalance(ps: PeerMap, qs: PeerMap, l: seq<PendingCall>, h: seq<Packet>)
    requires Balance(ps, l, h) && forall k :: Still(ps, qs, ReplyTo(k))
    ensures Balance(qs, l, h)
  {
    forall a: Id, k: int ensures Balanced(qs, l, h, a, k) {
      assert Balanced(ps, l, h, a, k);
      assert Still(ps, qs, ReplyTo(k));
    }
  }

  /** Answering a call writes one reply and frees one waiting call. */
  lemma AnswerBalance(ps: PeerMap, l: seq<PendingCall>, l': seq<PendingCall>, h: seq<Packet>, h': seq<Packet>,
                      a: Id, at: nat, f: Frame)
    requires Balance(ps, l, h) && f.ReplyResp? && a in ps
    requires forall b, k :: Asked(h', b, k) - Waiting(l', b, k) ==
                            Asked(h, b, k) - Waiting(l, b, k) + if b == a && k == f.cliid then 1 else 0
    requires forall b, k :: Waiting(l', b, k) <= Waiting(l, b, k)
    ensures Balance(Send(ps, a, at, f), l', h')
  {
    forall b: Id, k: int ensures Balanced(Send(ps, a, at, f), l', h', b, k) {
      assert Balanced(ps, l, h, b, k);
      WriteSelect(ps[a], at, ps[a].net, f, ReplyTo(k));
    }
  }

  // ---- packets ----

  /** A call for nobody is answered at once. */
  lemma RefusedBalance(s: Core, h: seq<Packet>, p: Packet, r: Request, now: int)
    requires Balance(s.peers, s.calls, h) && p.from in s.peers && Content(p) == Good(r)
    requires r.Call? && Callee(s, r.target, r.name).None?
    ensures var o := HandleCall(s, p.from, r, now); Balance(Settle(o, p.from), o.core.calls, h + [p])
  {
    forall b: Id, k: int { AskedMore(h, p, b, k); }
    AnswerBalance(s.peers, s.calls, s.calls, h, h + [p], p.from, s.step, ReplyResp(r.cliid, ENEXISTS, None, 0));
    ClosedSender(s, h, p);
  }

  /** A forwarded call waits. */
  lemma WaitBalance(s: Core, h: seq<Packet>, p: Packet, c: PendingCall)
    requires Balance(s.peers, s.calls, h) && p.from in s.peers
    requires c.sender == p.from && forall a, k :: Asks(p, a, k) <==> a == c.sender && k == c.cliid
    ensures Balance(s.peers, Insert(s.calls, c), h + [p])
  {
    forall a: Id, k: int ensures Balanced(s.peers, Insert(s.calls, c), h + [p], a, k) {
      assert Balanced(s.peers, s.calls, h, a, k);
      AskedMore(h, p, a, k);
      WaitingInsert(s.calls, c, a, k);
      WaitingOne(c, a, k);
    }
  }

  lemma CallBalance(s: Core, h: seq<Packet>, p: Packet, r: Request, now: int)
    requires Balance(s.peers, s.calls, h) && p.from in s.peers && r.Call? && Content(p) == Good(r)
    ensures var o := HandleCall(s, p.from, r, now); Balance(Settle(o, p.from), o.core.calls, h + [p])
  {
    match Callee(s, r.target, r.name)
    case None => RefusedBalance(s, h, p, r, now);
    case Some(t) =>
      var o := HandleCall(s, p.from, r, now);
      var c := PendingCall(|s.forwards| + 1, r.cliid, p.from, t, Deadline(now, r.timeout));
      WaitBalance(s, h, p, c);
      var f := CallResp(|s.forwards| + 1, r.name, r.args, TagOf(s, p.from), NameOf(s.reg, p.from));
      forall k: int ensures Still(s.peers, Settle(o, p.from), ReplyTo(k)) {
        SendStill(s.peers, t, s.step, f, ReplyTo(k));
        ShutStill(s.peers, o.core.peers, p.from, ReplyTo(k));
      }
      StillBalance(s.peers, Settle(o, p.from), o.core.calls, h + [p]);
  }

  lemma NotACall(ps: PeerMap, l: seq<PendingCall>, h: seq<Packet>, p: Packet)
    requires Balance(ps, l, h) && !(Content(p).Good? && Content(p).req.Call?)
    ensures Balance(ps, l, h + [p])
  {
    forall a: Id, k: int ensures Balanced(ps, l, h + [p], a, k) {
      assert Balanced(ps, l, h, a, k);
      AskedMore(h, p, a, k);
    }
  }

  /** A reply that finds its call moves it from waiting to answered. */
  lemma ReplyBalance(s: Core, h: seq<Packet>, p: Packet, r: Request)
    requires Balance(s.peers, s.calls, h) && r.Reply? && Content(p) == Good(r)
    ensures var o := HandleReply(s, p.from, r); Balance(Settle(o, p.from), o.core.calls, h + [p])
  {
    NotACall(s.peers, s.calls, h, p);
    var o := HandleReply(s, p.from, r);
    if o.core == s {
      StillBalance(s.peers, Settle(o, p.from), s.calls, h + [p]);
    } else {
      var i := Find(s.calls, r.svrid, p.from);
      var c := s.calls[i];
      forall b: Id, k: int
        ensures Waiting(s.calls, b, k) == Waiting(o.core.calls, b, k) + if b == c.sender && k == c.cliid then 1 else 0
      {
        WaitingRemove(s.calls, i, b, k);
        WaitingOne(c, b, k);
      }
      var f := ReplyResp(c.cliid, SUCCESS, Some(Response(r.code, r.values, NameOf(s.reg, p.from))), TagOf(s, p.from));
      AnswerBalance(s.peers, s.calls, o.core.calls, h + [p], h + [p], c.sender, s.step, f);
    }
  }

  /** A packet whose sender ends up closed can only leave the balance in credit. */
  lemma ClosedSender(s: Core, h: seq<Packet>, p: Packet)
    requires Balance(s.peers, s.calls, h) && p.from in s.peers
    ensures Balance(Shut(s.peers, p.from), s.calls, h + [p])
  {
    forall a: Id, k: int ensures Balanced(Shut(s.peers, p.from), s.calls, h + [p], a, k) {
      assert Balanced(s.peers, s.calls, h, a, k);
      AskedMore(h, p, a, k);
    }
  }

  lemma HandleBalance(s: Core, h: seq<Packet>, p: Packet, now: int)
    requires Balance(s.peers, s.calls, h) && p.from in s.peers
    ensures Balance(Handle(s, p, now).peers, Handle(s, p, now).calls, h + [p])
  {
    if !CallOrReply(p) {
      NotACall(s.peers, s.calls, h, p);
      OtherPackets(s, p, now);
      forall k: int { HandleStill(s, p, now, ReplyTo(k)); }
      StillBalance(s.peers, Handle(s, p, now).peers, s.calls, h + [p]);
    } else {
      ClosedSender(s, h, p);
      if p.from !in s.reg.monitors && p.from in s.reg.infos {
        var r := Content(p).req;
        if r.Call? { CallBalance(s, h, p, r, now); } else { ReplyBalance(s, h, p, r); }
      }
    }
  }

  /** Timing out the first n calls moves each from waiting to answered. */
  lemma {:induction false} TimeOutBalance(s: Core, h: seq<Packet>, n: nat)
    requires Balance(s.peers, s.calls, h) && n <= |s.calls|
    ensures Balance(TimeOut(s.peers, s.calls, s.step, n), s.calls[n..], h)
  {
    if n == 0 {
      assert s.calls[0..] == s.calls;
    } else {
      TimeOutBalance(s, h, n - 1);
      var ps, c := TimeOut(s.peers, s.calls, s.step, n - 1), s.calls[n - 1];
      assert s.calls[n - 1..] == [c] + s.calls[n..];
      forall b: Id, k: int
        ensures Waiting(s.calls[n - 1..], b, k) == Waiting(s.calls[n..], b, k) + if b == c.sender && k == c.cliid then 1 else 0
      {
        WaitingAppend([c], s.calls[n..], b, k);
        WaitingOne(c, b, k);
      }
      assert Balanced(ps, s.calls[n - 1..], h, c.sender, c.cliid);
      AnswerBalance(ps, s.calls[n - 1..], s.calls[n..], h, h, c.sender, s.step, ReplyResp(c.cliid, ETIMEOUT, None, 0));
    }
  }

  // ---- runs ----

  /** Packets come from known connections, and weak pointers expire after closing. */
  ghost predicate Known(s: State) {
    && s.adapters <= s.core.peers.Keys && GoneClosed(s.core.peers)
    && (forall i | 0 <= i < |s.batch| :: s.batch[i].from in s.core.peers)
    && (forall i | 0 <= i < |s.queue| :: s.queue[i].from in s.core.peers)
  }

  lemma HandleKeys(s: Core, p: Packet, now: int)
    ensures Handle(s, p, now).peers.Keys == s.peers.Keys
    ensures GoneClosed(s.peers) ==> GoneClosed(Handle(s, p, now).peers)
  {
    HandleStill(s, p, now, (f: Frame) => false);
  }

  lemma {:induction false} TimeOutKeys(ps: PeerMap, l: seq<PendingCall>, at: nat, n: nat)
    requires n <= |l|
    ensures TimeOut(ps, l, at, n).Keys == ps.Keys
    ensures GoneClosed(ps) ==> GoneClosed(TimeOut(ps, l, at, n))
  {
    if n > 0 { TimeOutKeys(ps, l, at, n - 1); }
  }

  lemma StepKnown(s: State, e: Event)
    requires Known(s)
    ensures Known(Step(s, e)) && s.core.peers.Keys <= Step(s, e).core.peers.Keys
  {
    match e
    case Tick(now) => TimeOutKeys(s.core.peers, s.core.calls, s.core.step, Overdue(s.core.calls, now));
    case Next(now) => if s.batch != [] { HandleKeys(s.core, s.batch[0], now); }
    case _ =>
  }

  lemma StepBalance(s: State, e: Event)
    requires Known(s) && Balance(s.core.peers, s.core.calls, s.handled)
    ensures Balance(Step(s, e).core.peers, Step(s, e).core.calls, Step(s, e).handled)
  {
    match e
    case Tick(now) => TimeOutBalance(s.core, s.handled, Overdue(s.core.calls, now));
    case Next(now) => if s.batch != [] { HandleBalance(s.core, s.handled, s.batch[0], now); }
    case _ => OtherBalance(s, e);
  }

  lemma OtherBalance(s: State, e: Event)
    requires Balance(s.core.peers, s.core.calls, s.handled) && !e.Next? && !e.Tick?
    ensures Balance(Step(s, e).core.peers, Step(s, e).core.calls, Step(s, e).handled)
  {
    var ps := Step(s, e).core.peers;
    forall a: Id, k: int ensures Balanced(ps, s.core.calls, s.handled, a, k) {
      assert Balanced(s.core.peers, s.core.calls, s.handled, a, k);
      if a in ps { NothingWritten(s, e, a); }
    }
  }

  /** On every open connection the replies written plus the calls still waiting are
      exactly the calls asked; on a closed one there are never more. */
  lemma {:induction false} RunBalance(cfg: Config, es: seq<Event>)
    ensures var s := Run(Init(cfg), es); Known(s) && Balance(s.core.peers, s.core.calls, s.handled)
  {
    if es != [] {
      var s := Run(Init(cfg), es[..|es| - 1]);
      RunBalance(cfg, es[..|es| - 1]);
      StepKnown(s, es[|es| - 1]);
      StepBalance(s, es[|es| - 1]);
    }
  }

  /** A request whose id the client used once is answered at most once. */
  lemma AtMostOneReply(cfg: Config, es: seq<Event>, a: Id, k: int)
    requires var s := Run(Init(cfg), es); a in s.core.peers && Asked(s.handled, a, k) <= 1
    ensures Answered(Run(Init(cfg), es).core.peers[a].sent, k) <= 1
  {
    RunBalance(cfg, es);
    var s := Run(Init(cfg), es);
    assert Balanced(s.core.peers, s.core.calls, s.handled, a, k);
  }
}
