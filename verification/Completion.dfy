/** Calls complete: what is sent, forwarded, answered and read takes a call from its
    caller to the callee and back. */
module Completion {
  import opened Wire
  import opened Codec
  import opened Peers
  import opened Broker
  import opened Effects
  import opened E = EndToEnd
  import Deadlines

  // ---- a reply that was read is returned ----

  predicate OwnWake(m: Move, c: Id, req: nat) { m.Act? && m.c == c && m.e.Wake? && m.e.req == req }

  /** The next frame of a client is well-formed and, if a reply, not to number 0. */
  ghost predicate NextInOrder(w: World, c: Id) {
    && c in w.nodes && c in w.broker.core.peers && T.Sound(w.nodes[c].client)
    && (w.nodes[c].cursor < |w.broker.core.peers[c].sent| ==> InOrder(w.broker.core.peers[c].sent[w.nodes[c].cursor].frame))
  }

  predicate InOrder(f: Frame) { WellFormed(f) && (f.ReplyResp? ==> f.cliid >= 1) }

  lemma GoodInOrder(w: World, c: Id)
    requires E.Good(w) && c in w.nodes
    ensures NextInOrder(w, c)
  {
    NodeAt(w, c);
    if w.nodes[c].cursor < |w.broker.core.peers[c].sent| {
      ReplyNumbers(w, c, w.nodes[c].cursor);
      CauseOf(w, c, w.nodes[c].cursor);
      CauseFormed(w.broker.handled, w.broker.core.forwards, c, w.broker.core.peers[c].sent[w.nodes[c].cursor]);
    }
  }

  lemma PlayInOrder(cfg: Config, ms: seq<Move>, c: Id)
    requires c in Play(cfg, ms).nodes
    ensures NextInOrder(Play(cfg, ms), c)
  {
    PlayGood(cfg, ms);
    GoodInOrder(Play(cfg, ms), c);
  }

  lemma PlayWellKept(cfg: Config, ms: seq<Move>)
    ensures var s := Play(cfg, ms).broker.core; Deadlines.WellKept(s.calls, |s.forwards|)
  {
    var es := PlayIsRun(cfg, ms);
    Deadlines.RunWellKept(cfg, es);
  }

  lemma CauseFormed(h: seq<Packet>, fw: seq<Forward>, c: Id, x: Sent)
    requires Causality.Cause(h, fw, c, x)
    ensures WellFormed(x.frame)
  {}

  /** The client holds the answer of a blocking call that was sent. */
  ghost predicate AnswerHeld(w: World, c: Id, x: T.Entry) {
    && c in w.nodes && x in w.nodes[c].client.table && x.req in w.nodes[c].client.sent
    && x.kind == T.Blocking && x.id == 0
  }

  /** A client keeps the answer of a blocking call through every move but the wake of its
      caller. */
  lemma MoveKeepsAnswer(w: World, m: Move, c: Id, x: T.Entry)
    requires NextInOrder(w, c) && AnswerHeld(w, c, x) && !OwnWake(m, c, x.req)
    ensures AnswerHeld(Advance(w, m), c, x)
  {
    match m
    case Act(b, e) => if b == c && !e.Reply? { T.AnswerStays(w.nodes[c].client, e, x); }
    case Receive(b) => if b == c { ReceiveKeepsAnswer(w, c, x); }
    case _ =>
  }

  lemma ReceiveKeepsAnswer(w: World, c: Id, x: T.Entry)
    requires NextInOrder(w, c) && AnswerHeld(w, c, x)
    ensures AnswerHeld(Advance(w, Receive(c)), c, x)
  {
    var n := w.nodes[c];
    if n.cursor < |w.broker.core.peers[c].sent| {
      var f := w.broker.core.peers[c].sent[n.cursor].frame;
      ReadsBack(n, f);
      if f.ReplyResp? { T.AnswerStays(n.client, T.Reply(f.cliid, f.rescode, f.resp), x); }
    }
  }

  lemma PlayNext(cfg: Config, ms: seq<Move>, m: Move)
    ensures Play(cfg, ms + [m]) == Advance(Play(cfg, ms), m)
  {
    assert (ms + [m])[..|ms|] == ms;
  }

  lemma {:induction false} AnswerWaits(cfg: Config, ms: seq<Move>, more: seq<Move>, c: Id, x: T.Entry)
    requires AnswerHeld(Play(cfg, ms), c, x) && forall i | 0 <= i < |more| :: !OwnWake(more[i], c, x.req)
    ensures AnswerHeld(Play(cfg, ms + more), c, x)
    decreases |more|
  {
    if more == [] {
      assert ms + more == ms;
    } else {
      var n := |more| - 1;
      AnswerWaits(cfg, ms, more[..n], c, x);
      PlayInOrder(cfg, ms + more[..n], c);
      MoveKeepsAnswer(Play(cfg, ms + more[..n]), more[n], c, x);
      PlayNext(cfg, ms + more[..n], more[n]);
      assert ms + more == ms + more[..n] + [more[n]];
    }
  }

  /** A call that was sent and waits, and the next frame of its client, which answers it. */
  ghost predicate NextAnswers(w: World, c: Id, e: T.Entry, f: Frame) {
    && c in w.nodes && c in w.broker.core.peers
    && e in w.nodes[c].client.table && e.id == e.req && e.req in w.nodes[c].client.sent
    && w.nodes[c].cursor < |w.broker.core.peers[c].sent| && w.broker.core.peers[c].sent[w.nodes[c].cursor].frame == f
    && f.ReplyResp? && f.cliid == e.req
  }

  /** Reading the reply puts it into the entry. */
  lemma ReplyIsRead(w: World, c: Id, e: T.Entry, f: Frame)
    requires NextInOrder(w, c) && NextAnswers(w, c, e, f) && e.kind == T.Blocking
    ensures AnswerHeld(Advance(w, Receive(c)), c, T.WithAnswer(e, f.rescode, f.resp)) && (f.rescode == SUCCESS <==> f.resp.Some?)
    ensures Advance(w, Receive(c)).nodes[c].client.returned == w.nodes[c].client.returned
  {
    ReadsBack(w.nodes[c], f);
    T.AnswerKept(w.nodes[c].client, e, f.rescode, f.resp);
  }

  /** In every run: a client that has read the reply to a waiting blocking request returns
      that reply's code and response at the request's next wake in time, whatever happens in
      between. */
  lemma ReplyIsReturned(cfg: Config, ms: seq<Move>, more: seq<Move>, c: Id, e: T.Entry, f: Frame)
    requires NextAnswers(Play(cfg, ms), c, e, f) && e.kind == T.Blocking && forall i | 0 <= i < |more| :: !OwnWake(more[i], c, e.req)
    ensures var w := Play(cfg, ms + [Receive(c)] + more); var w' := Advance(w, Act(c, T.Wake(e.req, false)));
            && c in w.nodes && c in w'.nodes
            && w'.nodes[c].client.returned == w.nodes[c].client.returned + [T.Done(e.req, f.rescode, f.resp)]
  {
    var ms', x := ms + [Receive(c)], T.WithAnswer(e, f.rescode, f.resp);
    PlayInOrder(cfg, ms, c);
    ReplyIsRead(Play(cfg, ms), c, e, f);
    PlayNext(cfg, ms, Receive(c));
    AnswerWaits(cfg, ms', more, c, x);
    PlayInOrder(cfg, ms' + more, c);
    AnswerReturned(Play(cfg, ms' + more), c, x);
  }

  lemma AnswerReturned(w: World, c: Id, x: T.Entry)
    requires NextInOrder(w, c) && AnswerHeld(w, c, x)
    ensures var w' := Advance(w, Act(c, T.Wake(x.req, false)));
            c in w'.nodes && w'.nodes[c].client.returned ==
              w.nodes[c].client.returned + [T.Done(x.req, x.rcode, if x.rcode == SUCCESS then x.result else None)]
  {
    T.WakeReturns(w.nodes[c].client, x, false);
  }

  /** In every run: reading the reply to a waiting callback calls it with that reply's code
      and response. */
  lemma CallbackIsCalled(cfg: Config, ms: seq<Move>, c: Id, e: T.Entry, f: Frame)
    requires NextAnswers(Play(cfg, ms), c, e, f) && e.kind == T.Callback
    ensures var w, w' := Play(cfg, ms), Advance(Play(cfg, ms), Receive(c));
            && c in w.nodes && c in w'.nodes
            && w'.nodes[c].client.taken == w.nodes[c].client.taken + [T.Done(e.req, f.rescode, f.resp)]
  {
    PlayInOrder(cfg, ms, c);
    CallbackRead(Play(cfg, ms), c, e, f);
  }

  lemma CallbackRead(w: World, c: Id, e: T.Entry, f: Frame)
    requires NextInOrder(w, c) && NextAnswers(w, c, e, f) && e.kind == T.Callback
    ensures var w' := Advance(w, Receive(c));
            && c in w.nodes && c in w'.nodes
            && w'.nodes[c].client.taken == w.nodes[c].client.taken + [T.Done(e.req, f.rescode, f.resp)]
  {
    ReadsBack(w.nodes[c], f);
    T.ReplyTakes(w.nodes[c].client, e, f.rescode, f.resp);
  }

  // ---- a whole call ----

  /** The client after it has numbered, listed and sent a blocking call. */
  function Asking(c: T.Client, ask: T.Ask): T.Client {
    T.Step(T.Step(T.Step(c, T.Begin(T.Blocking, ask, true)), T.Push), T.Send(true))
  }

  function AskMoves(w: World, c: Id, ask: T.Ask): World {
    Advance(Advance(Advance(w, Act(c, T.Begin(T.Blocking, ask, true))), Act(c, T.Push)), Act(c, T.Send(true)))
  }

  /** A client that calls puts the request on its uplink, under its next number. */
  lemma CallIsSent(w: World, c: Id, ask: T.Ask)
    requires c in w.nodes && T.Sound(w.nodes[c].client) && w.nodes[c].client.phase == T.Idle && w.nodes[c].client.ready
    ensures var n := w.nodes[c]; var req := n.client.reqseq + 1;
            AskMoves(w, c, ask) == w.(nodes := w.nodes[c := n.(client := Asking(n.client, ask),
              uplink := n.uplink + [[I32(7), Str(ask.name), Str(ask.target), I32(req), I32(ask.timeout), Obj(ask.args)]])])
  {
    var n := w.nodes[c];
    var c1 := T.Step(n.client, T.Begin(T.Blocking, ask, true));
    var c2 := T.Step(c1, T.Push);
    assert ActNode(n, T.Begin(T.Blocking, ask, true)) == n.(client := c1);
    assert ActNode(n.(client := c1), T.Push) == n.(client := c2);
    assert CallOf(c2, c2.phase.req) == Call(ask.name, ask.target, n.client.reqseq + 1, ask.timeout, ask.args);
  }

  function ServeMoves(w: World, c: Id, now: int): World {
    Advance(Advance(Advance(w, Deliver(c)), Serve(Tick(now))), Serve(Next(now)))
  }

  /** The only message on an uplink is read, fetched and handled by an idle broker. */
  lemma MessageIsHandled(w: World, c: Id, cells: Cells, now: int)
    requires c in w.nodes && c in w.broker.adapters && w.nodes[c].uplink == [cells] && w.broker.batch == [] && w.broker.queue == []
    ensures var w' := ServeMoves(w, c, now);
            && w'.nodes == w.nodes[c := w.nodes[c].(uplink := [])]
            && w'.broker.core == Handle(w.broker.core, Packet(c, Some(cells)), now)
            && w'.broker.batch == [] && w'.broker.queue == [] && w'.broker.adapters == w.broker.adapters
  {
    assert [cells][1..] == [];
  }

  /** A client makes a reply object of a call frame it reads. */
  lemma CallIsRead(w: World, t: Id, f: Frame)
    requires t in w.nodes && t in w.broker.core.peers && w.nodes[t].cursor < |w.broker.core.peers[t].sent|
    requires w.broker.core.peers[t].sent[w.nodes[t].cursor].frame == f && f.CallResp?
    ensures var n := w.nodes[t];
            Advance(w, Receive(t)) == w.(nodes := w.nodes[t := n.(cursor := n.cursor + 1,
              objs := n.objs + [Held(n.cursor, f.name, f.args, R.Start(f.svrid), None)])])
  {
    ReadsBack(w.nodes[t], f);
  }

  /** Ending a fresh reply object sends its answer. */
  lemma AnswerIsSent(w: World, t: Id, i: nat, v: int, code: int, data: Caps)
    requires t in w.nodes && w.nodes[t].client.ready && i < |w.nodes[t].objs| && w.nodes[t].objs[i].st == R.Start(v)
    ensures var n, n' := w.nodes[t], UseNode(w.nodes[t], i, R.EndData(code, data));
            && Advance(w, UseReply(t, i, R.EndData(code, data))) == w.(nodes := w.nodes[t := n'])
            && n'.uplink == n.uplink + [[I32(4), I32(v), I32(code), Obj(data)]]
            && n'.client == n.client && n'.cursor == n.cursor
  {}

  /** Two open clients, one of which has the method that the other calls. */
  ghost predicate Linked(s: Core, c: Id, t: Id, ask: T.Ask) {
    && c != t && IsClient(s, c) && IsClient(s, t) && s.peers[c].open && s.peers[c].room > 0 && s.peers[t].open && s.peers[t].room > 0
    && ask.target in s.reg.named && s.reg.named[ask.target] == t && ask.name in s.reg.infos[t].methods
  }

  function CallPacket(c: Id, req: int, ask: T.Ask): Packet {
    Packet(c, Some([I32(7), Str(ask.name), Str(ask.target), I32(req), I32(ask.timeout), Obj(ask.args)]))
  }

  function ReplyPacket(t: Id, v: int, code: int, data: Caps): Packet {
    Packet(t, Some([I32(4), I32(v), I32(code), Obj(data)]))
  }

  function CallFrame(s: Core, c: Id, ask: T.Ask): Frame
    requires IsClient(s, c)
  {
    CallResp(|s.forwards| + 1, ask.name, ask.args, s.peers[c].tag, s.reg.infos[c].name)
  }

  function ReplyFrame(s: Core, t: Id, req: int, code: int, data: Caps): Frame
    requires IsClient(s, t)
  {
    ReplyResp(req, SUCCESS, Some(Response(code, data, s.reg.infos[t].name)), s.peers[t].tag)
  }

  /** A call that waits for this reply. */
  predicate WaitsFor(l: seq<Calls.PendingCall>, v: int, req: int, c: Id, t: Id) {
    exists i :: 0 <= i < |l| && l[i].svrid == v && l[i].cliid == req && l[i].sender == c && l[i].target == t
  }

  /** The broker's part of the way out. */
  lemma CallGoesOut(s: Core, c: Id, t: Id, ask: T.Ask, req: int, now: int)
    requires Linked(s, c, t, ask) && s.cfg.fits(CallFrame(s, c, ask), s.peers[t].net)
    ensures var s' := Handle(s, CallPacket(c, req, ask), now);
            && Written(s.peers, s'.peers, t, s.step, CallFrame(s, c, ask))
            && s'.reg == s.reg && s'.cfg == s.cfg && s'.step == s.step + 1
  {
    CallContent(c, req, ask);
    CallReaches(s, CallPacket(c, req, ask), now, Call(ask.name, ask.target, req, ask.timeout, ask.args));
    HandleConfig(s, CallPacket(c, req, ask), now);
  }

  lemma CallWaits(s: Core, c: Id, t: Id, ask: T.Ask, req: int, now: int)
    requires Linked(s, c, t, ask)
    ensures WaitsFor(Handle(s, CallPacket(c, req, ask), now).calls, |s.forwards| + 1, req, c, t)
  {
    var due := now + if ask.timeout == 0 then 200 else ask.timeout;
    CallContent(c, req, ask);
    CallReaches(s, CallPacket(c, req, ask), now, Call(ask.name, ask.target, req, ask.timeout, ask.args));
    Joined(Handle(s, CallPacket(c, req, ask), now).calls, s.calls, Calls.PendingCall(|s.forwards| + 1, req, c, t, due));
  }

  lemma CallContent(c: Id, req: int, ask: T.Ask)
    ensures Requests(CallPacket(c, req, ask), Call(ask.name, ask.target, req, ask.timeout, ask.args))
  {
    var cells := CallPacket(c, req, ask).body.value;
    RequestParsed(ask.name, ask.target, req, 0, ask.timeout, 0, ask.args, []);
    assert cells + [] == cells;
  }

  lemma HandleConfig(s: Core, p: Packet, now: int)
    ensures Handle(s, p, now).cfg == s.cfg && Handle(s, p, now).step == s.step + 1
  {}

  lemma Joined(l: seq<Calls.PendingCall>, before: seq<Calls.PendingCall>, c: Calls.PendingCall)
    requires multiset(l) == multiset(before) + multiset{c}
    ensures WaitsFor(l, c.svrid, c.cliid, c.sender, c.target)
  {
    assert c in multiset(l);
  }

  /** The broker's part of the way back. */
  lemma ReplyComesBack(s: Core, c: Id, t: Id, v: int, req: int, code: int, data: Caps, now: int)
    requires IsClient(s, c) && IsClient(s, t) && WaitsFor(s.calls, v, req, c, t) && Calls.Distinct(s.calls) && s.peers[c].open
    requires s.cfg.fits(ReplyFrame(s, t, req, code, data), s.peers[c].net)
    ensures Written(s.peers, Handle(s, ReplyPacket(t, v, code, data), now).peers, c, s.step, ReplyFrame(s, t, req, code, data))
  {
    var p := ReplyPacket(t, v, code, data);
    ReplyContent(t, v, code, data);
    var i :| 0 <= i < |s.calls| && s.calls[i].svrid == v && s.calls[i].cliid == req && s.calls[i].sender == c && s.calls[i].target == t;
    ReplyReaches(s, p, now, Reply(v, code, data), i);
  }

  lemma ReplyContent(t: Id, v: int, code: int, data: Caps)
    ensures Requests(ReplyPacket(t, v, code, data), Reply(v, code, data))
  {
    var cells := ReplyPacket(t, v, code, data).body.value;
    RequestParsed("", "", v, code, 0, 0, data, []);
    assert cells + [] == cells;
  }

  /** There and back again. */
  lemma CallAndReply(s: Core, c: Id, t: Id, ask: T.Ask, req: int, now: int, later: int, code: int, data: Caps)
    requires Linked(s, c, t, ask) && s.cfg.fits(CallFrame(s, c, ask), s.peers[t].net)
    requires s.cfg.fits(ReplyFrame(s, t, req, code, data), s.peers[c].net) && Deadlines.WellKept(s.calls, |s.forwards|)
    ensures var s1 := Handle(s, CallPacket(c, req, ask), now);
            var s2 := Handle(s1, ReplyPacket(t, |s.forwards| + 1, code, data), later);
            && c in s1.peers && s1.peers[c].sent == s.peers[c].sent
            && t in s1.peers && s1.peers[t].sent == s.peers[t].sent + [Sent(s.step, s.peers[t].net, CallFrame(s, c, ask))]
            && c in s2.peers
            && s2.peers[c].sent == s.peers[c].sent + [Sent(s.step + 1, s.peers[c].net, ReplyFrame(s, t, req, code, data))]
  {
    var s1 := Handle(s, CallPacket(c, req, ask), now);
    CallGoesOut(s, c, t, ask, req, now);
    CallWaits(s, c, t, ask, req, now);
    Deadlines.HandleWellKept(s, CallPacket(c, req, ask), now);
    ReplyAfter(s, s1, c, t, ask, req, |s.forwards| + 1, code, data, later);
  }

  lemma ReplyAfter(s: Core, s1: Core, c: Id, t: Id, ask: T.Ask, req: int, v: int, code: int, data: Caps, later: int)
    requires Linked(s, c, t, ask) && Written(s.peers, s1.peers, t, s.step, CallFrame(s, c, ask)) && s1.reg == s.reg
    requires s1.cfg == s.cfg && s1.step == s.step + 1 && WaitsFor(s1.calls, v, req, c, t) && Calls.Distinct(s1.calls)
    requires s.cfg.fits(ReplyFrame(s, t, req, code, data), s.peers[c].net)
    ensures var s2 := Handle(s1, ReplyPacket(t, v, code, data), later);
            && c in s2.peers
            && s2.peers[c].sent == s.peers[c].sent + [Sent(s.step + 1, s.peers[c].net, ReplyFrame(s, t, req, code, data))]
  {
    assert ReplyFrame(s1, t, req, code, data) == ReplyFrame(s, t, req, code, data);
    ReplyComesBack(s1, c, t, v, req, code, data, later);
  }

  /** Two connected clients with nothing on the way, linked by the broker. */
  ghost predicate Resting(w: World, c: Id, t: Id, ask: T.Ask) {
    && c in w.nodes && t in w.nodes && c in w.broker.adapters && t in w.broker.adapters
    && Linked(w.broker.core, c, t, ask) && w.broker.batch == [] && w.broker.queue == []
    && AtRest(w.nodes[c], w.broker.core.peers[c]) && AtRest(w.nodes[t], w.broker.core.peers[t])
    && w.nodes[c].client.phase == T.Idle
  }

  predicate AtRest(n: Node, p: Peer) { n.client.ready && n.uplink == [] && n.cursor == |p.sent| }

  /** The way to the callee: its reply object shows the call. */
  lemma CallArrives(w: World, c: Id, t: Id, ask: T.Ask, now: int)
    requires Resting(w, c, t, ask) && w.broker.core.cfg.fits(CallFrame(w.broker.core, c, ask), w.broker.core.peers[t].net)
    requires T.Sound(w.nodes[c].client)
    ensures var s := w.broker.core; var req := w.nodes[c].client.reqseq + 1;
            var w' := GoOut(w, c, t, ask, now);
            && w'.broker.core == Handle(s, CallPacket(c, req, ask), now)
            && w'.broker.batch == [] && w'.broker.queue == [] && w'.broker.adapters == w.broker.adapters
            && c in w'.nodes && w'.nodes[c] == w.nodes[c].(client := Asking(w.nodes[c].client, ask))
            && t in w'.nodes && w'.nodes[t] == w.nodes[t].(cursor := w.nodes[t].cursor + 1, objs := w.nodes[t].objs +
                 [Held(w.nodes[t].cursor, ask.name, ask.args, R.Start(|s.forwards| + 1), None)])
  {
    var s, req := w.broker.core, w.nodes[c].client.reqseq + 1;
    CallIsSent(w, c, ask);
    var w1 := AskMoves(w, c, ask);
    MessageIsHandled(w1, c, CallPacket(c, req, ask).body.value, now);
    CallGoesOut(s, c, t, ask, req, now);
    CallIsRead(ServeMoves(w1, c, now), t, CallFrame(s, c, ask));
  }

  /** The way back: the reply is the next frame of the caller. */
  lemma AnswerArrives(w: World, c: Id, t: Id, s: Core, i: nat, v: int, code: int, data: Caps, later: int)
    requires c in w.nodes && t in w.nodes && c != t && t in w.broker.adapters && w.broker.batch == [] && w.broker.queue == []
    requires w.nodes[t].client.ready && w.nodes[t].uplink == [] && i < |w.nodes[t].objs| && w.nodes[t].objs[i].st == R.Start(v)
    requires s == Handle(w.broker.core, ReplyPacket(t, v, code, data), later)
    ensures var w' := ServeMoves(Advance(w, UseReply(t, i, R.EndData(code, data))), t, later);
            w'.broker.core == s && c in w'.nodes && w'.nodes[c] == w.nodes[c]
  {
    AnswerIsSent(w, t, i, v, code, data);
    var w1 := Advance(w, UseReply(t, i, R.EndData(code, data)));
    MessageIsHandled(w1, t, ReplyPacket(t, v, code, data).body.value, later);
  }

  /** The caller reads the reply and wakes. */
  lemma CallReturns(w: World, c: Id, before: T.Client, ask: T.Ask, f: Frame)
    requires T.Sound(before) && before.phase == T.Idle && before.ready
    requires c in w.nodes && c in w.broker.core.peers && w.nodes[c].client == Asking(before, ask)
    requires w.nodes[c].cursor + 1 == |w.broker.core.peers[c].sent| && w.broker.core.peers[c].sent[w.nodes[c].cursor].frame == f
    requires f.ReplyResp? && f.cliid == before.reqseq + 1 && f.rescode == SUCCESS && f.resp.Some?
    ensures var w' := Advance(Advance(w, Receive(c)), Act(c, T.Wake(before.reqseq + 1, false)));
            c in w'.nodes && w'.nodes[c].client.returned == before.returned + [T.Done(before.reqseq + 1, SUCCESS, f.resp)]
  {
    var req := before.reqseq + 1;
    var e := T.Entry(req, req, T.Blocking, SUCCESS, None);
    T.CallListed(before, T.Blocking, ask);
    AskingSound(before, ask);
    assert e == Asking(before, ask).table[|before.table|];
    ReplyIsRead(w, c, e, f);
    ReadSound(w, c, f);
    T.WakeReturns(Advance(w, Receive(c)).nodes[c].client, T.WithAnswer(e, SUCCESS, f.resp), false);
  }

  lemma AskingSound(c: T.Client, ask: T.Ask)
    requires T.Sound(c)
    ensures T.Sound(Asking(c, ask)) && Asking(c, ask).returned == c.returned
  {
    var c1 := T.Step(c, T.Begin(T.Blocking, ask, true));
    T.StepSound(c, T.Begin(T.Blocking, ask, true));
    T.StepSound(c1, T.Push);
    T.StepSound(T.Step(c1, T.Push), T.Send(true));
  }

  lemma ReadSound(w: World, c: Id, f: Frame)
    requires c in w.nodes && c in w.broker.core.peers && T.Sound(w.nodes[c].client) && WellFormed(f) && f.ReplyResp?
    requires w.nodes[c].cursor < |w.broker.core.peers[c].sent| && w.broker.core.peers[c].sent[w.nodes[c].cursor].frame == f
    ensures c in Advance(w, Receive(c)).nodes && T.Sound(Advance(w, Receive(c)).nodes[c].client)
  {
    ReadsBack(w.nodes[c], f);
    T.StepSound(w.nodes[c].client, T.Reply(f.cliid, f.rescode, f.resp));
  }

  /** The moves that take a call to the callee. */
  function GoOut(w: World, c: Id, t: Id, ask: T.Ask, now: int): World {
    Advance(ServeMoves(AskMoves(w, c, ask), c, now), Receive(t))
  }

  /** The moves that take the answer of the i-th reply object back to request req. */
  function ComeBack(w: World, c: Id, req: nat, t: Id, i: nat, code: int, data: Caps, later: int): World {
    Advance(Advance(ServeMoves(Advance(w, UseReply(t, i, R.EndData(code, data))), t, later), Receive(c)), Act(c, T.Wake(req, false)))
  }

  lemma AnswerReturns(w: World, c: Id, t: Id, before: T.Client, ask: T.Ask, i: nat, v: int, code: int, data: Caps, later: int, x: Sent)
    requires c in w.nodes && t in w.nodes && c != t && t in w.broker.adapters && w.broker.batch == [] && w.broker.queue == []
    requires w.nodes[t].client.ready && w.nodes[t].uplink == [] && i < |w.nodes[t].objs| && w.nodes[t].objs[i].st == R.Start(v)
    requires T.Sound(before) && before.phase == T.Idle && before.ready && w.nodes[c].client == Asking(before, ask)
    requires c in w.broker.core.peers && w.nodes[c].cursor == |w.broker.core.peers[c].sent|
    requires var s2 := Handle(w.broker.core, ReplyPacket(t, v, code, data), later);
             c in s2.peers && s2.peers[c].sent == w.broker.core.peers[c].sent + [x]
    requires var f := x.frame; f.ReplyResp? && f.cliid == before.reqseq + 1 && f.rescode == SUCCESS && f.resp.Some?
    ensures var w' := ComeBack(w, c, before.reqseq + 1, t, i, code, data, later);
            c in w'.nodes && w'.nodes[c].client.returned == before.returned + [T.Done(before.reqseq + 1, SUCCESS, x.frame.resp)]
  {
    var s2 := Handle(w.broker.core, ReplyPacket(t, v, code, data), later);
    AnswerArrives(w, c, t, s2, i, v, code, data, later);
    CallReturns(ServeMoves(Advance(w, UseReply(t, i, R.EndData(code, data))), t, later), c, before, ask, x.frame);
  }

  /** The frames of a call and its answer fit the buffer. */
  ghost predicate BothFit(w: World, c: Id, t: Id, ask: T.Ask, code: int, data: Caps)
    requires Resting(w, c, t, ask)
  {
    var s := w.broker.core;
    && s.cfg.fits(CallFrame(s, c, ask), s.peers[t].net)
    && s.cfg.fits(ReplyFrame(s, t, w.nodes[c].client.reqseq + 1, code, data), s.peers[c].net)
  }

  /** The moves of the call give the caller this response. */
  ghost predicate Returns(w: World, c: Id, t: Id, ask: T.Ask, now: int, code: int, data: Caps, later: int, resp: Response)
    requires c in w.nodes && t in w.nodes
  {
    var n, req := w.nodes[c].client, w.nodes[c].client.reqseq + 1;
    var w' := ComeBack(GoOut(w, c, t, ask, now), c, req, t, |w.nodes[t].objs|, code, data, later);
    c in w'.nodes && w'.nodes[c].client.returned == n.returned + [T.Done(req, SUCCESS, Some(resp))]
  }

  lemma CallCompletes(w: World, c: Id, t: Id, ask: T.Ask, now: int, code: int, data: Caps, later: int)
    requires Resting(w, c, t, ask) && BothFit(w, c, t, ask, code, data)
    requires NextInOrder(w, c) && Deadlines.WellKept(w.broker.core.calls, |w.broker.core.forwards|)
    ensures Returns(w, c, t, ask, now, code, data, later, Response(code, data, w.broker.core.reg.infos[t].name))
  {
    var s, n, req := w.broker.core, w.nodes[c].client, w.nodes[c].client.reqseq + 1;
    CallArrives(w, c, t, ask, now);
    CallAndReply(s, c, t, ask, req, now, later, code, data);
    AnswerReturns(GoOut(w, c, t, ask, now), c, t, n, ask, |w.nodes[t].objs|, |s.forwards| + 1, code, data, later,
                  Sent(s.step + 1, s.peers[c].net, ReplyFrame(s, t, req, code, data)));
  }

  /** A whole call. In every state that a run reaches: if two clients are connected and at
      rest, one has a method that the other calls by name, and the two frames fit, then the
      moves of the call give the caller exactly the code and the data that the callee gives,
      and the callee's name. */
  lemma CallSucceeds(cfg: Config, ms: seq<Move>, w: World, c: Id, t: Id, ask: T.Ask, now: int, code: int, data: Caps, later: int)
    requires w == Play(cfg, ms) && Resting(w, c, t, ask) && BothFit(w, c, t, ask, code, data)
    ensures Returns(w, c, t, ask, now, code, data, later, Response(code, data, w.broker.core.reg.infos[t].name))
  {
    PlayWellKept(cfg, ms);
    PlayInOrder(cfg, ms, c);
    CallCompletes(w, c, t, ask, now, code, data, later);
  }
}
