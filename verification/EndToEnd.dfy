/** Remote calls end to end: any number of clients that come and go, their call
    tables and reply objects, the links in both directions and the broker. */
module EndToEnd {
  import opened Wire
  import opened Codec
  import opened Peers
  import opened Broker
  import opened Causality
  import opened Quiet
  import Order
  import Conservation
  import T = CallTable
  import R = ReplyObject

  /** A reply object of the application: the log position of the call frame it was made
      for, the call it shows, and the answer it sent. */
  datatype Held = Held(at: nat, name: string, args: Caps, st: R.ReplyState, answer: Option<R.Answer>)

  /** One connection's client. cursor counts the frames it has read; uplink holds the
      messages it sent that the poll has not read yet. */
  datatype Node = Node(client: T.Client, cursor: nat, objs: seq<Held>, uplink: seq<Cells>)

  datatype World = World(broker: State, nodes: map<Id, Node>)

  datatype Move =
    | Connect(c: Id, net: bool, tag: int, room: nat, auth: Request)
    | Act(c: Id, e: T.Event)              // a caller or closer thread
    | Other(c: Id, r: Request)            // subscribe, post, declare, ping
    | Receive(c: Id)                      // the receiving thread takes a frame
    | UseReply(c: Id, i: nat, op: R.Op)   // the application answers a call
    | Deliver(c: Id)                      // the poll reads a message
    | Serve(event: Event)                 // the broker works

  function CallOf(client: T.Client, req: nat): Request
    requires req in client.asked
  {
    var ask := client.asked[req];
    Call(ask.name, ask.target, req, ask.timeout, ask.args)
  }

  /** Caller and closer threads; a successful send puts the call on the uplink. */
  function ActNode(n: Node, e: T.Event): Node {
    if e.Reply? then n else
    var n' := n.(client := T.Step(n.client, e));
    if e.Send? && e.ok && n.client.ready && n.client.phase.Pushed? && n.client.phase.req in n.client.asked
    then n'.(uplink := n.uplink + [EncodeRequest(CallOf(n.client, n.client.phase.req))])
    else n'
  }

  function ReceiveFrame(n: Node, f: Frame): Node {
    var n := n.(cursor := n.cursor + 1);
    match f
    case ReplyResp(id, rescode, resp, _) => n.(client := T.Step(n.client, T.Reply(id, rescode, resp)))
    case CallResp(v, name, args, _, _) => n.(objs := n.objs + [Held(n.cursor - 1, name, args, R.Start(v), None)])
    case _ => n
  }

  /** What arrives is parsed first; what does not parse is not acted on. */
  function ReceiveNode(n: Node, cells: Cells): Node {
    match ParseFrame(cells)
    case Some(f) => ReceiveFrame(n, f)
    case None => n.(cursor := n.cursor + 1)
  }

  function UseNode(n: Node, i: nat, op: R.Op): Node
    requires i < |n.objs|
  {
    var o := n.objs[i];
    match R.Sends(o.st, op)
    case None => n.(objs := n.objs[i := o.(st := R.Apply(o.st, op))])
    case Some(a) =>
      n.(objs := n.objs[i := o.(st := R.Apply(o.st, op), answer := Some(a))],
         uplink := if n.client.ready then n.uplink + [EncodeRequest(Reply(a.callid, a.code, a.data))] else n.uplink)
  }

  function Advance(w: World, m: Move): World {
    match m
    case Connect(c, net, tag, room, auth) =>
      if c in w.nodes || c in w.broker.core.peers || !auth.Auth? then w
      else World(Step(w.broker, Accept(c, net, tag, room)),
                 w.nodes[c := Node(T.Start(), 0, [], [EncodeRequest(auth)])])
    case Act(c, e) => if c in w.nodes then w.(nodes := w.nodes[c := ActNode(w.nodes[c], e)]) else w
    case Other(c, r) =>
      if c !in w.nodes || r.Call? || r.Reply? || r.Auth? then w
      else w.(nodes := w.nodes[c := w.nodes[c].(uplink := w.nodes[c].uplink + [EncodeRequest(r)])])
    case Receive(c) =>
      if c !in w.nodes || c !in w.broker.core.peers || w.nodes[c].cursor >= |w.broker.core.peers[c].sent| then w else
      var f := w.broker.core.peers[c].sent[w.nodes[c].cursor].frame;
      if !WellFormed(f) then w else w.(nodes := w.nodes[c := ReceiveNode(w.nodes[c], EncodeFrame(f))])
    case UseReply(c, i, op) =>
      if c in w.nodes && i < |w.nodes[c].objs| then w.(nodes := w.nodes[c := UseNode(w.nodes[c], i, op)]) else w
    case Deliver(c) =>
      if c !in w.nodes || w.nodes[c].uplink == [] then w
      else World(Step(w.broker, Put(c, w.nodes[c].uplink[0])),
                 w.nodes[c := w.nodes[c].(uplink := w.nodes[c].uplink[1..])])
    case Serve(e) => if e.Accept? || e.Put? then w else w.(broker := Step(w.broker, e))
  }

  function Play(cfg: Config, ms: seq<Move>): World {
    if ms == [] then World(Init(cfg), map[]) else Advance(Play(cfg, ms[..|ms| - 1]), ms[|ms| - 1])
  }

  // ---- what a client may have on the wire ----

  /** A call on the wire was asked for under its number; a reply on the wire was given
      by a reply object. */
  predicate Issued(n: Node, cells: Cells) {
    match ParseRequest(cells)
    case Good(Call(name, target, id, timeout, args)) =>
      id >= 1 && id in n.client.asked && n.client.asked[id] == T.Ask(name, target, timeout, args)
    case Good(Reply(v, code, values)) =>
      exists i :: 0 <= i < |n.objs| && n.objs[i].answer == Some(R.Answer(v, code, values))
    case _ => true
  }

  /** Asked calls and given answers are never taken back. */
  ghost predicate Keeps(n: Node, n': Node) {
    && (forall r | r in n.client.asked :: r in n'.client.asked && n'.client.asked[r] == n.client.asked[r])
    && |n.objs| <= |n'.objs|
    && (forall i | 0 <= i < |n.objs| && n.objs[i].answer.Some? :: n'.objs[i].answer == n.objs[i].answer)
  }

  ghost predicate GoodUplink(n: Node) { forall i | 0 <= i < |n.uplink| :: Issued(n, n.uplink[i]) }

  /** Reply objects stem from call frames the client has read, in order, one each. */
  ghost predicate GoodObjs(n: Node, sent: seq<Sent>) {
    && n.cursor <= |sent|
    && (forall i | 0 <= i < |n.objs| ::
          var o := n.objs[i];
          && o.at < n.cursor && sent[o.at].frame.CallResp?
          && sent[o.at].frame.svrid == o.st.callid && sent[o.at].frame.name == o.name && sent[o.at].frame.args == o.args
          && (o.answer.Some? ==> o.answer.value.callid == o.st.callid && !o.st.live))
    && (forall i, j | 0 <= i < j < |n.objs| :: n.objs[i].at < n.objs[j].at)
  }

  /** The client read a reply of SUCCESS to its request, with this response. */
  predicate Answered(n: Node, sent: seq<Sent>, req: nat, resp: Option<Response>) {
    exists j :: 0 <= j < n.cursor <= |sent| && sent[j].frame.ReplyResp? && sent[j].frame.cliid == req
                && sent[j].frame.rescode == SUCCESS && sent[j].frame.resp == resp
  }

  /** Every result with a response was read off the link. */
  ghost predicate GoodResults(n: Node, sent: seq<Sent>) {
    && (forall d | d in n.client.taken && d.code == SUCCESS :: Answered(n, sent, d.req, d.resp))
    && (forall d | d in n.client.returned && d.code == SUCCESS && d.resp.Some? :: Answered(n, sent, d.req, d.resp))
    && (forall e | e in n.client.table && e.id == 0 && e.rcode == SUCCESS :: Answered(n, sent, e.req, e.result))
    && (forall r | r in n.client.asked :: 1 <= r <= n.client.reqseq)
    && (!n.client.phase.Idle? ==> n.client.phase.req in n.client.asked)
  }

  ghost predicate GoodNode(n: Node, sent: seq<Sent>) {
    T.Sound(n.client) && T.Filled(n.client) && GoodUplink(n) && GoodObjs(n, sent) && GoodResults(n, sent)
  }

  /** Reading on does not change what was read. */
  lemma SentGrows(n: Node, sent: seq<Sent>, sent': seq<Sent>)
    requires GoodNode(n, sent) && sent <= sent'
    ensures GoodNode(n, sent')
  {}

  // ---- one node moves ----

  lemma EncodedIssued(n: Node, r: Request)
    requires !r.Call? && !r.Reply?
    ensures Issued(n, EncodeRequest(r))
  {}

  lemma CallIssued(n: Node, req: nat)
    requires req in n.client.asked && req >= 1
    ensures Issued(n, EncodeRequest(CallOf(n.client, req)))
  {}

  lemma ReplyIssued(n: Node, i: nat, a: R.Answer)
    requires i < |n.objs| && n.objs[i].answer == Some(a)
    ensures Issued(n, EncodeRequest(Reply(a.callid, a.code, a.data)))
  {}

  lemma UplinkStays(n: Node, n': Node)
    requires GoodUplink(n) && Keeps(n, n') && n'.uplink == n.uplink
    ensures GoodUplink(n')
  {}

  lemma UplinkMore(n: Node, cells: Cells)
    requires GoodUplink(n) && Issued(n, cells)
    ensures GoodUplink(n.(uplink := n.uplink + [cells]))
  {}

  lemma AskedStay(c: T.Client, e: T.Event)
    requires T.Sound(c) && (forall r | r in c.asked :: 1 <= r <= c.reqseq) && (!c.phase.Idle? ==> c.phase.req in c.asked)
    ensures var c' := T.Step(c, e);
            && (forall r | r in c.asked :: r in c'.asked && c'.asked[r] == c.asked[r])
            && (forall r | r in c'.asked :: 1 <= r <= c'.reqseq) && (!c'.phase.Idle? ==> c'.phase.req in c'.asked)
  {}

  lemma SweepResults(n: Node, t: nat, sent: seq<Sent>)
    requires T.Sound(n.client) && GoodResults(n, sent)
    ensures var n' := n.(client := T.Step(n.client, T.Sweep(t))); GoodResults(n', sent)
  {
    var c := n.client;
    if t in c.closers && c.closers[t].Shut? {
      var err := c.closers[t].err;
      T.SweepFacts(c.table, err);
      CallbackCodes(c.table, err);
      var n' := n.(client := T.Step(c, T.Sweep(t)));
      forall req, resp | Answered(n, sent, req, resp) ensures Answered(n', sent, req, resp) {}
    }
  }

  lemma {:induction false} CallbackCodes(l: seq<T.Entry>, err: int)
    ensures forall d | d in T.CallbacksOf(l, err) :: d.code == err
  {
    if l != [] { CallbackCodes(l[1..], err); }
  }

  lemma WakeResults(n: Node, req: nat, timedOut: bool, sent: seq<Sent>)
    requires T.Sound(n.client) && T.Filled(n.client) && GoodResults(n, sent)
    ensures GoodResults(n.(client := T.OnWake(n.client, req, timedOut)), sent)
  {}

  lemma ActResults(n: Node, e: T.Event, sent: seq<Sent>)
    requires GoodNode(n, sent) && !e.Reply?
    ensures GoodResults(n.(client := T.Step(n.client, e)), sent)
  {
    var n' := n.(client := T.Step(n.client, e));
    AskedStay(n.client, e);
    forall r, resp | Answered(n, sent, r, resp) ensures Answered(n', sent, r, resp) {}
    match e
    case Sweep(t) => SweepResults(n, t, sent);
    case Wake(req, timedOut) => WakeResults(n, req, timedOut, sent);
    case _ =>
  }

  lemma ResultsAnyUplink(n: Node, n': Node, sent: seq<Sent>)
    requires GoodResults(n, sent) && n'.client == n.client && n'.cursor == n.cursor
    ensures GoodResults(n', sent)
  {}

  lemma ActGood(n: Node, e: T.Event, sent: seq<Sent>)
    requires GoodNode(n, sent)
    ensures GoodNode(ActNode(n, e), sent) && Keeps(n, ActNode(n, e))
  {
    if !e.Reply? {
      T.StepSound(n.client, e);
      T.StepFilled(n.client, e);
      ActResults(n, e, sent);
      AskedStay(n.client, e);
      var n' := n.(client := T.Step(n.client, e));
      UplinkStays(n, n');
      if ActNode(n, e) != n' {
        var req := n.client.phase.req;
        CallIssued(n', req);
        UplinkMore(n', EncodeRequest(CallOf(n'.client, req)));
        ResultsAnyUplink(n', ActNode(n, e), sent);
      }
    }
  }

  /** A reply frame is for the entry whose number it carries. */
  lemma ReplyResults(n: Node, n': Node, f: Frame, sent: seq<Sent>)
    requires T.Sound(n.client) && GoodResults(n, sent) && n.cursor < |sent| && sent[n.cursor].frame == f
    requires f.ReplyResp? && f.cliid >= 1
    requires n' == n.(cursor := n.cursor + 1, client := T.OnReply(n.client, f.cliid, f.rescode, f.resp))
    ensures GoodResults(n', sent)
  {}

  lemma CursorResults(n: Node, n': Node, sent: seq<Sent>)
    requires GoodResults(n, sent) && n'.client == n.client && n.cursor <= n'.cursor <= |sent|
    ensures GoodResults(n', sent)
  {}

  /** The wire does not change what a client makes of a frame. */
  lemma ReadsBack(n: Node, f: Frame)
    requires WellFormed(f)
    ensures ReceiveNode(n, EncodeFrame(f)) == ReceiveFrame(n, f)
  {
    if f.MonitorAll? || f.MonitorAdd? || f.MonitorRemove? {
      ListsStayLists(EncodeFrame(f));
    } else {
      FrameRoundTrip(f);
    }
  }

  lemma ListsStayLists(cells: Cells)
    requires cells != [] && cells[0] == I32(105)
    ensures var f := ParseFrame(cells); f.Some? ==> f.value.MonitorAll? || f.value.MonitorAdd? || f.value.MonitorRemove?
  {}

  lemma ReceiveGood(n: Node, sent: seq<Sent>)
    requires GoodNode(n, sent) && n.cursor < |sent|
    requires sent[n.cursor].frame.ReplyResp? ==> sent[n.cursor].frame.cliid >= 1
    ensures GoodNode(ReceiveFrame(n, sent[n.cursor].frame), sent) && Keeps(n, ReceiveFrame(n, sent[n.cursor].frame))
  {
    var f := sent[n.cursor].frame;
    var n' := ReceiveFrame(n, f);
    if f.ReplyResp? {
      var e := T.Reply(f.cliid, f.rescode, f.resp);
      T.StepSound(n.client, e);
      T.StepFilled(n.client, e);
      if f.rescode == SUCCESS <==> f.resp.Some? { ReplyResults(n, n', f, sent); } else { CursorResults(n, n', sent); }
    } else {
      CursorResults(n, n', sent);
    }
    UplinkStays(n, n');
  }

  lemma UseGood(n: Node, i: nat, op: R.Op, sent: seq<Sent>)
    requires GoodNode(n, sent) && i < |n.objs|
    ensures GoodNode(UseNode(n, i, op), sent) && Keeps(n, UseNode(n, i, op))
  {
    var n', o := UseNode(n, i, op), n.objs[i];
    var n1 := n.(objs := n'.objs);
    UplinkStays(n, n1);
    if R.Sends(o.st, op).Some? {
      var a := R.Sends(o.st, op).value;
      ReplyIssued(n1, i, a);
      UplinkMore(n1, EncodeRequest(Reply(a.callid, a.code, a.data)));
    }
    ResultsAnyUplink(n, n', sent);
  }

  // ---- the world ----

  ghost predicate BrokerGood(b: State) {
    && Fifo(b) && Explained(b.core, b.handled) && StoredExplained(b.core.topics, b.handled, |b.handled|)
    && Order.LogsOrdered(b.core.peers, b.core.step) && Order.ForwardsOrdered(b.core.forwards, b.core.step)
    && Conservation.Known(b)
  }

  /** A packet was issued by the client of its connection. */
  predicate Sourced(nodes: map<Id, Node>, p: Packet) {
    p.from in nodes && (p.body.Some? ==> Issued(nodes[p.from], p.body.value))
  }

  /** Whatever reached the broker was issued by a client. */
  ghost predicate Genuine(nodes: map<Id, Node>, arrived: seq<Packet>) {
    forall k | 0 <= k < |arrived| :: Sourced(nodes, arrived[k])
  }

  ghost predicate Good(w: World) {
    BrokerGood(w.broker) && Genuine(w.nodes, w.broker.arrived) && NodesGood(w.nodes, w.broker.core.peers)
  }

  ghost function NodeInvariant(): (Node, seq<Sent>) -> bool { (n, sent) => GoodNode(n, sent) }

  /** Every client satisfies an invariant with what was written to it. */
  ghost predicate AllNodes(nodes: map<Id, Node>, ps: PeerMap, inv: (Node, seq<Sent>) -> bool) {
    nodes.Keys == ps.Keys && forall c | c in nodes :: inv(nodes[c], ps[c].sent)
  }

  ghost predicate NodesGood(nodes: map<Id, Node>, ps: PeerMap) { AllNodes(nodes, ps, NodeInvariant()) }

  lemma NodeAt(w: World, c: Id)
    requires Good(w) && c in w.nodes
    ensures c in w.broker.core.peers && GoodNode(w.nodes[c], w.broker.core.peers[c].sent)
  {
    assert NodeInvariant()(w.nodes[c], w.broker.core.peers[c].sent);
  }

  lemma BrokerStays(b: State, e: Event)
    requires BrokerGood(b)
    ensures BrokerGood(Step(b, e))
  {
    StepFifo(b, e);
    StepExplained(b, e);
    Order.StepOrdered(b, e);
    Order.StepForwards(b, e);
    Conservation.StepKnown(b, e);
  }

  lemma SourcedStays(nodes: map<Id, Node>, c: Id, n: Node, arrived: seq<Packet>)
    requires Genuine(nodes, arrived) && (c in nodes ==> Keeps(nodes[c], n))
    ensures Genuine(nodes[c := n], arrived)
  {}

  /** One client moves, the broker does not. */
  lemma NodeMoves(w: World, c: Id, n: Node)
    requires Good(w) && c in w.nodes && GoodNode(n, w.broker.core.peers[c].sent) && Keeps(w.nodes[c], n)
    ensures Good(w.(nodes := w.nodes[c := n]))
  {
    SourcedStays(w.nodes, c, n, w.broker.arrived);
    NodeReplaced(w.nodes, w.broker.core.peers, c, n, NodeInvariant());
  }

  lemma NodeReplaced(nodes: map<Id, Node>, ps: PeerMap, c: Id, n: Node, inv: (Node, seq<Sent>) -> bool)
    requires AllNodes(nodes, ps, inv) && c in nodes && inv(n, ps[c].sent)
    ensures AllNodes(nodes[c := n], ps, inv)
  {
    assert nodes[c := n].Keys == nodes.Keys;
  }

  lemma NodeAdded(nodes: map<Id, Node>, ps: PeerMap, qs: PeerMap, c: Id, n: Node, inv: (Node, seq<Sent>) -> bool)
    requires AllNodes(nodes, ps, inv) && c !in nodes && qs.Keys == ps.Keys + {c} && inv(n, qs[c].sent)
    requires forall x | x in ps :: qs[x] == ps[x]
    ensures AllNodes(nodes[c := n], qs, inv)
  {
    assert nodes[c := n].Keys == nodes.Keys + {c};
  }

  lemma NodesSentGrows(nodes: map<Id, Node>, ps: PeerMap, qs: PeerMap)
    requires NodesGood(nodes, ps) && qs.Keys == ps.Keys && forall x | x in ps :: ps[x].sent <= qs[x].sent
    ensures NodesGood(nodes, qs)
  {
    var inv := NodeInvariant();
    forall c | c in nodes ensures inv(nodes[c], qs[c].sent) {
      assert inv(nodes[c], ps[c].sent);
      SentGrows(nodes[c], ps[c].sent, qs[c].sent);
    }
  }

  /** A reply frame names a call its receiver made, so never number 0. */
  lemma ReplyNumbers(w: World, c: Id, j: nat)
    requires Good(w) && c in w.nodes && j < |w.broker.core.peers[c].sent|
    ensures var f := w.broker.core.peers[c].sent[j].frame;
            f.ReplyResp? ==> f.cliid >= 1 && f.cliid in w.nodes[c].client.asked
  {
    var b := w.broker;
    var x := b.core.peers[c].sent[j];
    if x.frame.ReplyResp? {
      assert Cause(b.handled, b.core.forwards, c, x);
      if x.frame.rescode == ENEXISTS {
        CallNumber(w, x.at);
      } else {
        var i := ReplyForward(b.handled, b.core.forwards, c, x);
        ForwardNumber(w, i);
      }
    }
  }

  /** The forwarded call that a reply other than ENEXISTS belongs to. */
  lemma ReplyForward(h: seq<Packet>, fw: seq<Forward>, c: Id, x: Sent) returns (i: nat)
    requires Cause(h, fw, c, x) && x.frame.ReplyResp? && x.frame.rescode != ENEXISTS
    ensures i < |fw| && fw[i].caller == c && fw[i].cliid == x.frame.cliid
  {
    if x.frame.rescode == SUCCESS {
      i := RequestOf(h, x.at).value.svrid - 1;
    } else {
      i :| 0 <= i < |fw| && fw[i].caller == c && fw[i].cliid == x.frame.cliid;
    }
  }

  lemma ForwardNumber(w: World, i: nat)
    requires Good(w) && i < |w.broker.core.forwards|
    ensures var fw := w.broker.core.forwards[i];
            fw.cliid >= 1 && fw.caller in w.nodes && fw.cliid in w.nodes[fw.caller].client.asked
  {
    assert ForwardExplained(w.broker.handled, w.broker.core.forwards[i]);
    CallNumber(w, w.broker.core.forwards[i].at);
  }

  lemma CallNumber(w: World, k: nat)
    requires Good(w) && RequestOf(w.broker.handled, k).Some? && RequestOf(w.broker.handled, k).value.Call?
    ensures w.broker.handled[k].from in w.nodes
    ensures var r := RequestOf(w.broker.handled, k).value; var n := w.nodes[w.broker.handled[k].from];
            && r.cliid >= 1 && r.cliid in n.client.asked
            && n.client.asked[r.cliid] == T.Ask(r.name, r.target, r.timeout, r.args)
  {
    SourceOf(w, k);
    IssuedCall(w.nodes[w.broker.handled[k].from], w.broker.handled[k].body.value);
  }

  lemma IssuedCall(n: Node, cells: Cells)
    requires Issued(n, cells) && ParseRequest(cells).Good? && ParseRequest(cells).req.Call?
    ensures var r := ParseRequest(cells).req;
            r.cliid >= 1 && r.cliid in n.client.asked && n.client.asked[r.cliid] == T.Ask(r.name, r.target, r.timeout, r.args)
  {}

  lemma ServeGood(w: World, e: Event)
    requires Good(w) && !e.Accept? && !e.Put?
    ensures Good(w.(broker := Step(w.broker, e)))
  {
    var b := Step(w.broker, e);
    BrokerStays(w.broker, e);
    StepGrows(w.broker, e);
    ServeKeys(w.broker, e);
    NodesSentGrows(w.nodes, w.broker.core.peers, b.core.peers);
    ServeArrived(w.broker, e);
    forall k | 0 <= k < |b.arrived| ensures Sourced(w.nodes, b.arrived[k]) {
      assert k < |w.broker.arrived| ==> Sourced(w.nodes, w.broker.arrived[k]);
    }
  }

  lemma ServeKeys(b: State, e: Event)
    requires !e.Accept?
    ensures Step(b, e).core.peers.Keys == b.core.peers.Keys
  {
    match e
    case Tick(now) => Conservation.TimeOutKeys(b.core.peers, b.core.calls, b.core.step, Calls.Overdue(b.core.calls, now));
    case Next(now) => if b.batch != [] { Conservation.HandleKeys(b.core, b.batch[0], now); }
    case _ =>
  }

  lemma ServeArrived(b: State, e: Event)
    requires !e.Accept? && !e.Put?
    ensures forall k | 0 <= k < |Step(b, e).arrived| && k >= |b.arrived| ::
              Step(b, e).arrived[k].body.None? && Step(b, e).arrived[k].from in b.adapters
    ensures b.arrived <= Step(b, e).arrived
  {}

  lemma FreshNode(auth: Request)
    requires auth.Auth?
    ensures GoodNode(Node(T.Start(), 0, [], [EncodeRequest(auth)]), [])
  {}

  lemma AcceptFacts(b: State, c: Id, net: bool, tag: int, room: nat)
    requires c !in b.core.peers
    ensures var b' := Step(b, Accept(c, net, tag, room));
            && b'.arrived == b.arrived && b'.core.peers.Keys == b.core.peers.Keys + {c} && b'.core.peers[c].sent == []
            && forall x | x in b.core.peers :: b'.core.peers[x] == b.core.peers[x]
  {}

  lemma ConnectGood(w: World, c: Id, net: bool, tag: int, room: nat, auth: Request)
    requires Good(w) && c !in w.nodes && auth.Auth?
    ensures Good(World(Step(w.broker, Accept(c, net, tag, room)), w.nodes[c := Node(T.Start(), 0, [], [EncodeRequest(auth)])]))
  {
    var b := Step(w.broker, Accept(c, net, tag, room));
    var nodes := w.nodes[c := Node(T.Start(), 0, [], [EncodeRequest(auth)])];
    BrokerStays(w.broker, Accept(c, net, tag, room));
    AcceptFacts(w.broker, c, net, tag, room);
    SourcedStays(w.nodes, c, nodes[c], w.broker.arrived);
    FreshNode(auth);
    NodeAdded(w.nodes, w.broker.core.peers, b.core.peers, c, nodes[c], NodeInvariant());
  }

  lemma PopGood(n: Node, sent: seq<Sent>)
    requires GoodNode(n, sent) && n.uplink != []
    ensures var n' := n.(uplink := n.uplink[1..]); GoodNode(n', sent) && Keeps(n, n') && Issued(n', n.uplink[0])
  {}

  lemma PutFacts(b: State, c: Id, cells: Cells)
    ensures var b' := Step(b, Put(c, cells));
            b'.core == b.core && (b'.arrived == b.arrived || b'.arrived == b.arrived + [Packet(c, Some(cells))])
  {}

  /** The poll puts a message of a client on the broker's queue. */
  lemma PutGood(w: World, c: Id, cells: Cells)
    requires Good(w) && Sourced(w.nodes, Packet(c, Some(cells)))
    ensures Good(w.(broker := Step(w.broker, Put(c, cells))))
  {
    BrokerStays(w.broker, Put(c, cells));
    PutFacts(w.broker, c, cells);
    GenuineMore(w.nodes, w.broker.arrived, Step(w.broker, Put(c, cells)).arrived, Packet(c, Some(cells)));
  }

  lemma GenuineMore(nodes: map<Id, Node>, arrived: seq<Packet>, arrived': seq<Packet>, p: Packet)
    requires Genuine(nodes, arrived) && Sourced(nodes, p) && (arrived' == arrived || arrived' == arrived + [p])
    ensures Genuine(nodes, arrived')
  {}

  lemma DeliverGood(w: World, c: Id)
    requires Good(w) && c in w.nodes && w.nodes[c].uplink != []
    ensures Good(World(Step(w.broker, Put(c, w.nodes[c].uplink[0])),
                       w.nodes[c := w.nodes[c].(uplink := w.nodes[c].uplink[1..])]))
  {
    var cells, n := w.nodes[c].uplink[0], w.nodes[c].(uplink := w.nodes[c].uplink[1..]);
    NodeAt(w, c);
    PopGood(w.nodes[c], w.broker.core.peers[c].sent);
    NodeMoves(w, c, n);
    PutGood(w.(nodes := w.nodes[c := n]), c, cells);
  }

  lemma ReceiveMove(w: World, c: Id, f: Frame)
    requires Good(w) && c in w.nodes && w.nodes[c].cursor < |w.broker.core.peers[c].sent| && WellFormed(f)
    requires f == w.broker.core.peers[c].sent[w.nodes[c].cursor].frame
    ensures Good(w.(nodes := w.nodes[c := ReceiveNode(w.nodes[c], EncodeFrame(f))]))
  {
    NodeAt(w, c);
    ReplyNumbers(w, c, w.nodes[c].cursor);
    ReceiveGood(w.nodes[c], w.broker.core.peers[c].sent);
    ReadsBack(w.nodes[c], f);
    NodeMoves(w, c, ReceiveFrame(w.nodes[c], f));
  }

  lemma UseMove(w: World, c: Id, i: nat, op: R.Op)
    requires Good(w) && c in w.nodes && i < |w.nodes[c].objs|
    ensures Good(w.(nodes := w.nodes[c := UseNode(w.nodes[c], i, op)]))
  {
    NodeAt(w, c);
    UseGood(w.nodes[c], i, op, w.broker.core.peers[c].sent);
    NodeMoves(w, c, UseNode(w.nodes[c], i, op));
  }

  lemma ActMove(w: World, c: Id, e: T.Event)
    requires Good(w) && c in w.nodes
    ensures Good(w.(nodes := w.nodes[c := ActNode(w.nodes[c], e)]))
  {
    NodeAt(w, c);
    ActGood(w.nodes[c], e, w.broker.core.peers[c].sent);
    NodeMoves(w, c, ActNode(w.nodes[c], e));
  }

  /** Moves of one client. */
  lemma NodeAdvance(w: World, m: Move)
    requires Good(w) && (m.Act? || m.Other? || m.Receive? || m.UseReply?)
    ensures Good(Advance(w, m))
  {
    if m.c in w.nodes {
      match m
      case Act(c, e) => ActMove(w, c, e);
      case Other(c, r) => if !r.Call? && !r.Reply? { OtherGood(w, c, r); }
      case Receive(c) =>
        if c in w.broker.core.peers && w.nodes[c].cursor < |w.broker.core.peers[c].sent| {
          var f := w.broker.core.peers[c].sent[w.nodes[c].cursor].frame;
          if WellFormed(f) { ReceiveMove(w, c, f); }
        }
      case UseReply(c, i, op) => if i < |w.nodes[c].objs| { UseMove(w, c, i, op); }
    }
  }

  /** Moves that involve the broker. */
  lemma BrokerAdvance(w: World, m: Move)
    requires Good(w) && (m.Connect? || m.Deliver? || m.Serve?)
    ensures Good(Advance(w, m))
  {
    match m
    case Connect(c, net, tag, room, auth) => ConnectMove(w, c, net, tag, room, auth);
    case Deliver(c) => DeliverMove(w, c);
    case Serve(e) => ServeMove(w, e);
  }

  lemma ConnectMove(w: World, c: Id, net: bool, tag: int, room: nat, auth: Request)
    requires Good(w)
    ensures Good(Advance(w, Connect(c, net, tag, room, auth)))
  {
    if Advance(w, Connect(c, net, tag, room, auth)) != w { ConnectGood(w, c, net, tag, room, auth); }
  }

  lemma DeliverIs(w: World, c: Id)
    ensures Advance(w, Deliver(c)) ==
            if c in w.nodes && w.nodes[c].uplink != []
            then World(Step(w.broker, Put(c, w.nodes[c].uplink[0])), w.nodes[c := w.nodes[c].(uplink := w.nodes[c].uplink[1..])])
            else w
  {}

  lemma DeliverMove(w: World, c: Id)
    requires Good(w)
    ensures Good(Advance(w, Deliver(c)))
  {
    DeliverIs(w, c);
    if c in w.nodes && w.nodes[c].uplink != [] { DeliverGood(w, c); }
  }

  lemma ServeMove(w: World, e: Event)
    requires Good(w)
    ensures Good(Advance(w, Serve(e)))
  {
    if Advance(w, Serve(e)) != w { ServeGood(w, e); }
  }

  lemma AdvanceGood(w: World, m: Move)
    requires Good(w)
    ensures Good(Advance(w, m))
  {
    if m.Connect? || m.Deliver? || m.Serve? { BrokerAdvance(w, m); } else { NodeAdvance(w, m); }
  }

  lemma OtherGood(w: World, c: Id, r: Request)
    requires Good(w) && c in w.nodes && !r.Call? && !r.Reply?
    ensures Good(w.(nodes := w.nodes[c := w.nodes[c].(uplink := w.nodes[c].uplink + [EncodeRequest(r)])]))
  {
    var n := w.nodes[c].(uplink := w.nodes[c].uplink + [EncodeRequest(r)]);
    NodeAt(w, c);
    EncodedIssued(w.nodes[c], r);
    UplinkMore(w.nodes[c], EncodeRequest(r));
    ResultsAnyUplink(w.nodes[c], n, w.broker.core.peers[c].sent);
    NodeMoves(w, c, n);
  }

  lemma {:induction false} PlayGood(cfg: Config, ms: seq<Move>)
    ensures Good(Play(cfg, ms))
  {
    if ms == [] {
      RunExplained(cfg, []);
      Order.RunOrdered(cfg, []);
      Conservation.RunBalance(cfg, []);
    } else {
      PlayGood(cfg, ms[..|ms| - 1]);
      AdvanceGood(Play(cfg, ms[..|ms| - 1]), ms[|ms| - 1]);
    }
  }

  // ---- every request is sent once ----

  predicate IsCall(cells: Cells, k: int) {
    ParseRequest(cells).Good? && ParseRequest(cells).req.Call? && ParseRequest(cells).req.cliid == k
  }

  /** Calls with number k among the messages on an uplink. */
  function CallsIn(uplink: seq<Cells>, k: int): nat {
    if uplink == [] then 0 else (if IsCall(uplink[0], k) then 1 else 0) + CallsIn(uplink[1..], k)
  }

  predicate Sending(c: T.Client, k: int) { !c.phase.Idle? && c.phase.req == k }

  /** How often a client may have sent a call with number k. */
  function Allowed(c: T.Client, k: int): nat {
    if 0 <= k && k in c.asked && !Sending(c, k) then 1 else 0
  }

  predicate SentOnce(arrived: seq<Packet>, nodes: map<Id, Node>, c: Id, k: int) {
    if c in nodes then Conservation.Asked(arrived, c, k) + CallsIn(nodes[c].uplink, k) <= Allowed(nodes[c].client, k)
    else Conservation.Asked(arrived, c, k) == 0
  }

  /** No number is on the way to the broker, or arrived there, more than once. */
  ghost predicate Once(arrived: seq<Packet>, nodes: map<Id, Node>) {
    forall c, k :: SentOnce(arrived, nodes, c, k)
  }

  lemma {:induction false} CallsInMore(uplink: seq<Cells>, cells: Cells, k: int)
    ensures CallsIn(uplink + [cells], k) == CallsIn(uplink, k) + if IsCall(cells, k) then 1 else 0
  {
    if uplink != [] {
      CallsInMore(uplink[1..], cells, k);
      assert (uplink + [cells])[1..] == uplink[1..] + [cells];
    }
  }

  lemma EncodedCall(r: Request, k: int)
    ensures IsCall(EncodeRequest(r), k) <==> r.Call? && r.cliid == k
  {
    RequestRoundTrip(r, []);
    assert EncodeRequest(r) + [] == EncodeRequest(r);
  }

  /** One client moves; it sends no more than it may. */
  lemma OnceNode(arrived: seq<Packet>, nodes: map<Id, Node>, c: Id, n: Node)
    requires Once(arrived, nodes) && c in nodes
    requires forall k :: CallsIn(n.uplink, k) + Allowed(nodes[c].client, k) <= CallsIn(nodes[c].uplink, k) + Allowed(n.client, k)
    ensures Once(arrived, nodes[c := n])
  {
    var nodes' := nodes[c := n];
    forall x: Id, k: int ensures SentOnce(arrived, nodes', x, k) {
      assert SentOnce(arrived, nodes, x, k);
      assert CallsIn(n.uplink, k) + Allowed(nodes[c].client, k) <= CallsIn(nodes[c].uplink, k) + Allowed(n.client, k);
    }
  }

  lemma AllowedGrows(c: T.Client, e: T.Event, k: int)
    requires forall r | r in c.asked :: 1 <= r <= c.reqseq
    ensures Allowed(c, k) <= Allowed(T.Step(c, e), k)
  {}

  /** A send uses up the number it sends. */
  lemma SendAllowed(c: T.Client, k: int)
    requires c.phase.Pushed? && c.phase.req in c.asked
    ensures Allowed(T.Step(c, T.Send(true)), k) >= Allowed(c, k) + if c.phase.req == k then 1 else 0
  {}

  lemma ActOnce(n: Node, e: T.Event, k: int)
    requires forall r | r in n.client.asked :: 1 <= r <= n.client.reqseq
    ensures var n' := ActNode(n, e);
            CallsIn(n'.uplink, k) + Allowed(n.client, k) <= CallsIn(n.uplink, k) + Allowed(n'.client, k)
  {
    AllowedGrows(n.client, e, k);
    if !e.Reply? && e.Send? && e.ok && n.client.phase.Pushed? && n.client.phase.req in n.client.asked {
      var r := CallOf(n.client, n.client.phase.req);
      SendAllowed(n.client, k);
      EncodedCall(r, k);
      CallsInMore(n.uplink, EncodeRequest(r), k);
    }
  }

  /** The moves of one client other than its callers and closers send no call. */
  lemma NoCallSent(n: Node, n': Node, r: Request, k: int)
    requires n'.client.asked == n.client.asked && n'.client.phase == n.client.phase && !r.Call?
    requires n'.uplink == n.uplink || n'.uplink == n.uplink + [EncodeRequest(r)]
    ensures CallsIn(n'.uplink, k) + Allowed(n.client, k) <= CallsIn(n.uplink, k) + Allowed(n'.client, k)
  {
    EncodedCall(r, k);
    CallsInMore(n.uplink, EncodeRequest(r), k);
  }

  lemma UseSends(n: Node, i: nat, op: R.Op) returns (r: Request)
    requires i < |n.objs|
    ensures var n' := UseNode(n, i, op);
            && !r.Call? && n'.client == n.client
            && (n'.uplink == n.uplink || n'.uplink == n.uplink + [EncodeRequest(r)])
  {
    var a := R.Sends(n.objs[i].st, op);
    r := if a.Some? then Reply(a.value.callid, a.value.code, a.value.data) else Ping;
  }

  lemma ReceiveSends(n: Node, cells: Cells)
    ensures var n' := ReceiveNode(n, cells);
            n'.client.asked == n.client.asked && n'.client.phase == n.client.phase && n'.uplink == n.uplink
  {}

  lemma ActMoveOnce(arrived: seq<Packet>, nodes: map<Id, Node>, c: Id, e: T.Event)
    requires Once(arrived, nodes) && c in nodes && forall r | r in nodes[c].client.asked :: 1 <= r <= nodes[c].client.reqseq
    ensures Once(arrived, nodes[c := ActNode(nodes[c], e)])
  {
    forall k: int { ActOnce(nodes[c], e, k); }
    OnceNode(arrived, nodes, c, ActNode(nodes[c], e));
  }

  lemma NoCallOnce(arrived: seq<Packet>, nodes: map<Id, Node>, c: Id, n: Node, r: Request)
    requires Once(arrived, nodes) && c in nodes && !r.Call?
    requires n.client.asked == nodes[c].client.asked && n.client.phase == nodes[c].client.phase
    requires n.uplink == nodes[c].uplink || n.uplink == nodes[c].uplink + [EncodeRequest(r)]
    ensures Once(arrived, nodes[c := n])
  {
    forall k: int { NoCallSent(nodes[c], n, r, k); }
    OnceNode(arrived, nodes, c, n);
  }

  lemma NodeOnce(w: World, m: Move)
    requires Good(w) && Once(w.broker.arrived, w.nodes) && (m.Act? || m.Other? || m.Receive? || m.UseReply?)
    ensures Once(Advance(w, m).broker.arrived, Advance(w, m).nodes)
  {
    if m.c in w.nodes && Advance(w, m) != w {
      var n, arrived := w.nodes[m.c], w.broker.arrived;
      match m
      case Act(c, e) => ActFacts(w, c); ActMoveOnce(arrived, w.nodes, c, e);
      case Other(c, r) => NoCallOnce(arrived, w.nodes, c, n.(uplink := n.uplink + [EncodeRequest(r)]), r);
      case Receive(c) =>
        var cells := EncodeFrame(w.broker.core.peers[c].sent[n.cursor].frame);
        ReceiveSends(n, cells);
        NoCallOnce(arrived, w.nodes, c, ReceiveNode(n, cells), Ping);
      case UseReply(c, i, op) =>
        var r := UseSends(n, i, op);
        NoCallOnce(arrived, w.nodes, c, UseNode(n, i, op), r);
    }
  }

  lemma ActFacts(w: World, c: Id)
    requires Good(w) && c in w.nodes
    ensures forall r | r in w.nodes[c].client.asked :: 1 <= r <= w.nodes[c].client.reqseq
  {
    NodeAt(w, c);
  }

  lemma ConnectOnce(arrived: seq<Packet>, nodes: map<Id, Node>, c: Id, auth: Request)
    requires Once(arrived, nodes) && c !in nodes && auth.Auth?
    ensures Once(arrived, nodes[c := Node(T.Start(), 0, [], [EncodeRequest(auth)])])
  {
    var nodes' := nodes[c := Node(T.Start(), 0, [], [EncodeRequest(auth)])];
    forall x: Id, k: int ensures SentOnce(arrived, nodes', x, k) {
      assert SentOnce(arrived, nodes, x, k);
      EncodedCall(auth, k);
      CallsInMore([], EncodeRequest(auth), k);
    }
  }

  lemma DeliverOnce(b: State, nodes: map<Id, Node>, c: Id)
    requires Once(b.arrived, nodes) && c in nodes && nodes[c].uplink != []
    ensures Once(Step(b, Put(c, nodes[c].uplink[0])).arrived, nodes[c := nodes[c].(uplink := nodes[c].uplink[1..])])
  {
    var cells := nodes[c].uplink[0];
    var nodes' := nodes[c := nodes[c].(uplink := nodes[c].uplink[1..])];
    PutFacts(b, c, cells);
    forall x: Id, k: int ensures SentOnce(Step(b, Put(c, cells)).arrived, nodes', x, k) {
      assert SentOnce(b.arrived, nodes, x, k);
      Conservation.AskedMore(b.arrived, Packet(c, Some(cells)), x, k);
    }
  }

  lemma ServeOnce(b: State, nodes: map<Id, Node>, e: Event)
    requires Once(b.arrived, nodes) && !e.Accept? && !e.Put?
    ensures Once(Step(b, e).arrived, nodes)
  {
    forall x: Id, k: int ensures SentOnce(Step(b, e).arrived, nodes, x, k) {
      assert SentOnce(b.arrived, nodes, x, k);
      if e.Delete? { Conservation.AskedMore(b.arrived, Packet(e.a, None), x, k); }
    }
  }

  lemma AdvanceOnce(w: World, m: Move)
    requires Good(w) && Once(w.broker.arrived, w.nodes)
    ensures Once(Advance(w, m).broker.arrived, Advance(w, m).nodes)
  {
    match m
    case Connect(c, net, tag, room, auth) =>
      if c !in w.nodes && auth.Auth? { ConnectOnce(w.broker.arrived, w.nodes, c, auth); }
    case Deliver(c) => if c in w.nodes && w.nodes[c].uplink != [] { DeliverOnce(w.broker, w.nodes, c); }
    case Serve(e) => if !e.Accept? && !e.Put? { ServeOnce(w.broker, w.nodes, e); }
    case _ => NodeOnce(w, m);
  }

  lemma {:induction false} PlayOnce(cfg: Config, ms: seq<Move>)
    ensures Once(Play(cfg, ms).broker.arrived, Play(cfg, ms).nodes)
  {
    if ms != [] {
      PlayOnce(cfg, ms[..|ms| - 1]);
      PlayGood(cfg, ms[..|ms| - 1]);
      AdvanceOnce(Play(cfg, ms[..|ms| - 1]), ms[|ms| - 1]);
    }
  }

  lemma {:induction false} AskedPrefix(h: seq<Packet>, more: seq<Packet>, c: Id, k: int)
    ensures Conservation.Asked(h, c, k) <= Conservation.Asked(h + more, c, k)
    decreases |more|
  {
    if more == [] {
      assert h + more == h;
    } else {
      var n := |more| - 1;
      AskedPrefix(h, more[..n], c, k);
      assert h + more == h + more[..n] + [more[n]];
      Conservation.AskedMore(h + more[..n], more[n], c, k);
    }
  }

  lemma HandledArrived(h: seq<Packet>, rest: seq<Packet>, nodes: map<Id, Node>, c: Id, k: int)
    requires Once(h + rest, nodes)
    ensures Conservation.Asked(h, c, k) <= 1
  {
    assert SentOnce(h + rest, nodes, c, k);
    AskedPrefix(h, rest, c, k);
  }

  lemma HandledOnceIn(b: State, nodes: map<Id, Node>, c: Id, k: int)
    requires Fifo(b) && Once(b.arrived, nodes)
    ensures Conservation.Asked(b.handled, c, k) <= 1
  {
    assert b.arrived == b.handled + (b.batch + b.queue);
    HandledArrived(b.handled, b.batch + b.queue, nodes, c, k);
  }

  /** The broker of a run of the world takes part in a run of its own. */
  lemma {:induction false} PlayIsRun(cfg: Config, ms: seq<Move>) returns (es: seq<Event>)
    ensures Play(cfg, ms).broker == Run(Init(cfg), es)
  {
    es := [];
    if ms != [] {
      var w, m := Play(cfg, ms[..|ms| - 1]), ms[|ms| - 1];
      es := PlayIsRun(cfg, ms[..|ms| - 1]);
      if Advance(w, m).broker != w.broker {
        var e := EventOf(w, m);
        assert (es + [e])[..|es|] == es;
        es := es + [e];
      }
    }
  }

  /** The broker's part in a move. */
  lemma EventOf(w: World, m: Move) returns (e: Event)
    requires Advance(w, m).broker != w.broker
    ensures Advance(w, m).broker == Step(w.broker, e)
  {
    e := match m
      case Connect(c, net, tag, room, _) => Accept(c, net, tag, room)
      case Deliver(c) => Put(c, w.nodes[c].uplink[0])
      case Serve(e) => e
      case _ => Tick(0);
  }

  /** In every run each number of a client reaches the broker at most once. */
  lemma HandledOnce(cfg: Config, ms: seq<Move>, c: Id, k: int)
    ensures Conservation.Asked(Play(cfg, ms).broker.handled, c, k) <= 1
  {
    PlayOnce(cfg, ms);
    var es := PlayIsRun(cfg, ms);
    RunExplained(cfg, es);
    HandledOnceIn(Play(cfg, ms).broker, Play(cfg, ms).nodes, c, k);
  }

  /** In every run every request of every client is answered at most once, by ENEXISTS, by
      a response or by a timeout. */
  lemma AnsweredOnce(cfg: Config, ms: seq<Move>, c: Id, k: int)
    requires c in Play(cfg, ms).broker.core.peers
    ensures Conservation.Answered(Play(cfg, ms).broker.core.peers[c].sent, k) <= 1
  {
    var es := PlayIsRun(cfg, ms);
    HandledOnce(cfg, ms, c, k);
    Conservation.AtMostOneReply(cfg, es, c, k);
  }

  lemma {:induction false} AskedTwice(h: seq<Packet>, c: Id, k: int, i: nat, j: nat)
    requires i < j < |h| && Conservation.Asks(h[i], c, k) && Conservation.Asks(h[j], c, k)
    ensures Conservation.Asked(h, c, k) >= 2
  {
    var n := |h| - 1;
    if j < n {
      AskedTwice(h[..n], c, k, i, j);
    } else {
      AskedAtLeastOnce(h[..n], c, k, i);
    }
  }

  lemma {:induction false} AskedAtLeastOnce(h: seq<Packet>, c: Id, k: int, i: nat)
    requires i < |h| && Conservation.Asks(h[i], c, k)
    ensures Conservation.Asked(h, c, k) >= 1
  {
    if i < |h| - 1 { AskedAtLeastOnce(h[..|h| - 1], c, k, i); }
  }

  /** Forwarded calls stem from packets, in order, one each. */
  ghost predicate ForwardsGood(h: seq<Packet>, fws: seq<Forward>) {
    Order.ForwardsOrdered(fws, |h|) && forall i | 0 <= i < |fws| :: ForwardExplained(h, fws[i])
  }

  ghost predicate ForwardedOnce(fws: seq<Forward>, c: Id, k: int) {
    forall i, j | 0 <= i < |fws| && 0 <= j < |fws| && IsFor(fws[i], c, k) && IsFor(fws[j], c, k) :: i == j
  }

  predicate IsFor(f: Forward, c: Id, k: int) { f.caller == c && f.cliid == k }

  /** A request that was handled once is forwarded at most once. */
  lemma OneForward(h: seq<Packet>, fws: seq<Forward>, c: Id, k: int)
    requires ForwardsGood(h, fws) && Conservation.Asked(h, c, k) <= 1
    ensures ForwardedOnce(fws, c, k)
  {
    forall i, j | 0 <= i < |fws| && 0 <= j < |fws| && IsFor(fws[i], c, k) && IsFor(fws[j], c, k) ensures i == j {
      ForwardAsks(h, fws[i]);
      ForwardAsks(h, fws[j]);
      if i != j { AskedTwice(h, c, k, fws[if i < j then i else j].at, fws[if i < j then j else i].at); }
    }
  }

  lemma ForwardAsks(h: seq<Packet>, f: Forward)
    requires ForwardExplained(h, f)
    ensures f.at < |h| && Conservation.Asks(h[f.at], f.caller, f.cliid)
  {}

  // ---- no cross-talk ----

  /** The i-th reply object of client t was made for request req of client c and showed
      that request's method and arguments. */
  ghost predicate StandsFor(w: World, c: Id, req: nat, t: Id, i: nat) {
    && c in w.nodes && t in w.nodes && i < |w.nodes[t].objs|
    && var o, fws := w.nodes[t].objs[i], w.broker.core.forwards;
    && 1 <= o.st.callid <= |fws|
    && fws[o.st.callid - 1].caller == c && fws[o.st.callid - 1].cliid == req && fws[o.st.callid - 1].target == t
    && req in w.nodes[c].client.asked
    && w.nodes[c].client.asked[req].name == o.name && w.nodes[c].client.asked[req].args == o.args
  }

  /** No other reply object of any client was made for the same request. */
  ghost predicate OnlyObject(w: World, c: Id, req: nat, t: Id, i: nat) {
    forall t', j | StandsFor(w, c, req, t', j) :: t' == t && j == i
  }

  /** That object, the only one for the request, gave exactly this response. */
  ghost predicate ServedBy(w: World, c: Id, req: nat, resp: Response, t: Id, i: nat) {
    && StandsFor(w, c, req, t, i) && OnlyObject(w, c, req, t, i)
    && var o := w.nodes[t].objs[i];
    o.answer == Some(R.Answer(o.st.callid, resp.retCode, resp.data))
  }

  lemma OnlyOne(w: World, c: Id, req: nat, t: Id, i: nat)
    requires Good(w) && StandsFor(w, c, req, t, i) && Conservation.Asked(w.broker.handled, c, req) <= 1
    ensures OnlyObject(w, c, req, t, i)
  {
    Distinct(w, t);
    OneForward(w.broker.handled, w.broker.core.forwards, c, req);
    forall t', j | StandsFor(w, c, req, t', j) ensures t' == t && j == i {
      SameObject(w, c, req, t, i, t', j);
    }
  }

  /** No two reply objects of a client were made for the same call. */
  ghost predicate DistinctObjects(n: Node) {
    forall i, j | 0 <= i < j < |n.objs| :: n.objs[i].st.callid != n.objs[j].st.callid
  }

  lemma Distinct(w: World, t: Id)
    requires Good(w) && t in w.nodes
    ensures DistinctObjects(w.nodes[t])
  {
    forall i, j | 0 <= i < j < |w.nodes[t].objs| ensures w.nodes[t].objs[i].st.callid != w.nodes[t].objs[j].st.callid {
      OneObject(w, t, i, j);
    }
  }

  lemma SameObject(w: World, c: Id, req: nat, t: Id, i: nat, t': Id, j: nat)
    requires StandsFor(w, c, req, t, i) && StandsFor(w, c, req, t', j)
    requires ForwardedOnce(w.broker.core.forwards, c, req) && DistinctObjects(w.nodes[t])
    ensures t' == t && j == i
  {
    var fws, u, v := w.broker.core.forwards, w.nodes[t].objs[i].st.callid, w.nodes[t'].objs[j].st.callid;
    assert IsFor(fws[u - 1], c, req) && IsFor(fws[v - 1], c, req);
    SameTarget(w, c, req, t, i, t', j);
  }

  lemma SameTarget(w: World, c: Id, req: nat, t: Id, i: nat, t': Id, j: nat)
    requires StandsFor(w, c, req, t, i) && StandsFor(w, c, req, t', j)
    requires w.nodes[t].objs[i].st.callid == w.nodes[t'].objs[j].st.callid
    ensures t' == t
  {}

  lemma OneObject(w: World, t: Id, i: nat, j: nat)
    requires Good(w) && t in w.nodes && i < j < |w.nodes[t].objs|
    ensures w.nodes[t].objs[i].st.callid != w.nodes[t].objs[j].st.callid
  {
    var b := w.broker;
    NodeAt(w, t);
    assert Order.Ordered(b.core.peers[t].sent, b.core.step);
    OneObjectEach(w.nodes[t], b.core.peers[t].sent, b.core.step, b.handled, b.core.forwards, t, i, j);
  }

  /** Two objects come from two frames of one log, and so from two forwarded calls. */
  lemma OneObjectEach(n: Node, sent: seq<Sent>, bound: nat, h: seq<Packet>, fw: seq<Forward>, t: Id, i: nat, j: nat)
    requires GoodObjs(n, sent) && Order.Ordered(sent, bound) && i < j < |n.objs|
    requires forall k | 0 <= k < |sent| :: Cause(h, fw, t, sent[k])
    ensures n.objs[i].st.callid != n.objs[j].st.callid
  {
    assert Cause(h, fw, t, sent[n.objs[i].at]);
    assert Cause(h, fw, t, sent[n.objs[j].at]);
  }

  /** The request packet behind a reply object. */
  ghost predicate MadeFor(w: World, t: Id, i: nat) {
    && t in w.nodes && i < |w.nodes[t].objs|
    && var o, b := w.nodes[t].objs[i], w.broker;
    && 1 <= o.st.callid <= |b.core.forwards|
    && (o.answer.Some? ==> o.answer.value.callid == o.st.callid)
    && var r := RequestOf(b.handled, b.core.forwards[o.st.callid - 1].at);
    r.Some? && r.value.Call? && r.value.name == o.name && r.value.args == o.args
  }

  lemma ObjectsMade(w: World, t: Id, i: nat)
    requires Good(w) && t in w.nodes && i < |w.nodes[t].objs|
    ensures MadeFor(w, t, i)
  {
    var b, n := w.broker, w.nodes[t];
    NodeAt(w, t);
    assert Cause(b.handled, b.core.forwards, t, b.core.peers[t].sent[n.objs[i].at]);
  }

  /** Which request a forwarded call belongs to. */
  ghost predicate AskedFor(w: World, v: nat) {
    && 1 <= v <= |w.broker.core.forwards|
    && var fw := w.broker.core.forwards[v - 1]; var r := RequestOf(w.broker.handled, fw.at);
    && r.Some? && r.value.Call? && fw.caller in w.nodes && fw.cliid >= 1
    && fw.cliid in w.nodes[fw.caller].client.asked
    && w.nodes[fw.caller].client.asked[fw.cliid].name == r.value.name
    && w.nodes[fw.caller].client.asked[fw.cliid].args == r.value.args
  }

  lemma ForwardIsAsked(w: World, v: nat)
    requires Good(w) && 1 <= v <= |w.broker.core.forwards|
    ensures AskedFor(w, v)
  {
    var fw := w.broker.core.forwards[v - 1];
    assert ForwardExplained(w.broker.handled, fw);
    CallNumber(w, fw.at);
  }

  /** The i-th reply object of t gave the answer that a reply frame for c carries. */
  ghost predicate Gave(w: World, c: Id, f: Frame, t: Id, i: nat) {
    && f.ReplyResp? && f.resp.Some? && t in w.nodes && i < |w.nodes[t].objs|
    && var a, fws := w.nodes[t].objs[i].answer, w.broker.core.forwards;
    && a.Some? && a.value.code == f.resp.value.retCode && a.value.data == f.resp.value.data
    && 1 <= a.value.callid <= |fws| && fws[a.value.callid - 1].caller == c
    && fws[a.value.callid - 1].cliid == f.cliid && fws[a.value.callid - 1].target == t
  }

  lemma CauseOf(w: World, c: Id, j: nat)
    requires Good(w) && c in w.nodes && j < |w.broker.core.peers[c].sent|
    ensures Cause(w.broker.handled, w.broker.core.forwards, c, w.broker.core.peers[c].sent[j])
  {}

  lemma SourceOf(w: World, k: nat)
    requires Good(w) && k < |w.broker.handled|
    ensures Sourced(w.nodes, w.broker.handled[k])
  {
    assert w.broker.handled[k] == w.broker.arrived[k];
    assert Sourced(w.nodes, w.broker.arrived[k]);
  }

  /** Where a successful reply frame came from. */
  lemma ReplySource(w: World, c: Id, x: Sent) returns (t: Id, i: nat)
    requires x.frame.ReplyResp? && x.frame.rescode == SUCCESS
    requires Cause(w.broker.handled, w.broker.core.forwards, c, x)
    requires x.at < |w.broker.handled| ==> Sourced(w.nodes, w.broker.handled[x.at])
    ensures Gave(w, c, x.frame, t, i)
  {
    t := w.broker.handled[x.at].from;
    var r := RequestOf(w.broker.handled, x.at).value;
    i :| 0 <= i < |w.nodes[t].objs| && w.nodes[t].objs[i].answer == Some(R.Answer(r.svrid, r.code, r.values));
  }

  lemma GaveStands(w: World, c: Id, f: Frame, t: Id, i: nat)
    requires Gave(w, c, f, t, i) && f.cliid >= 1 && MadeFor(w, t, i) && AskedFor(w, w.nodes[t].objs[i].st.callid)
    ensures StandsFor(w, c, f.cliid, t, i)
  {}

  /** The reply frame that a result was read from. */
  lemma ResultRead(w: World, c: Id, d: T.Done) returns (j: nat)
    requires Good(w) && c in w.nodes && d.code == SUCCESS
    requires var n := w.nodes[c]; d in n.client.taken || (d in n.client.returned && d.resp.Some?)
    ensures j < |w.broker.core.peers[c].sent|
    ensures var f := w.broker.core.peers[c].sent[j].frame;
            f.ReplyResp? && f.cliid == d.req && f.rescode == SUCCESS && f.resp == d.resp
  {
    var n, sent := w.nodes[c], w.broker.core.peers[c].sent;
    NodeAt(w, c);
    assert Answered(n, sent, d.req, d.resp);
    j :| 0 <= j < n.cursor <= |sent| && sent[j].frame.ReplyResp? && sent[j].frame.cliid == d.req
         && sent[j].frame.rescode == SUCCESS && sent[j].frame.resp == d.resp;
  }

  /** Where a result came from, in a world whose clients send each request once. */
  lemma ResultServed(w: World, c: Id, d: T.Done) returns (t: Id, i: nat)
    requires Good(w) && c in w.nodes && d.code == SUCCESS && Conservation.Asked(w.broker.handled, c, d.req) <= 1
    requires var n := w.nodes[c]; d in n.client.taken || (d in n.client.returned && d.resp.Some?)
    ensures d.resp.Some? && ServedBy(w, c, d.req, d.resp.value, t, i)
  {
    var j := ResultRead(w, c, d);
    var x := w.broker.core.peers[c].sent[j];
    ReplyNumbers(w, c, j);
    CauseOf(w, c, j);
    if x.at < |w.broker.handled| { SourceOf(w, x.at); }
    t, i := ReplySource(w, c, x);
    ObjectsMade(w, t, i);
    ForwardIsAsked(w, w.nodes[t].objs[i].st.callid);
    GaveStands(w, c, x.frame, t, i);
    OnlyOne(w, c, d.req, t, i);
  }

  /** In every run, through any number of connections, timeouts, late replies and
      restarted counters: a callback that is called with SUCCESS, and a blocking call
      that returns a response, got it from the one reply object that any client ever had
      for that very request. */
  lemma NoCrossTalk(cfg: Config, ms: seq<Move>, c: Id, d: T.Done)
    requires c in Play(cfg, ms).nodes && d.code == SUCCESS
    requires var n := Play(cfg, ms).nodes[c]; d in n.client.taken || (d in n.client.returned && d.resp.Some?)
    ensures d.resp.Some? && exists t, i :: ServedBy(Play(cfg, ms), c, d.req, d.resp.value, t, i)
  {
    PlayGood(cfg, ms);
    HandledOnce(cfg, ms, c, d.req);
    var t, i := ResultServed(Play(cfg, ms), c, d);
  }
}
