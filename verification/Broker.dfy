/** The broker as a state machine: what each packet, timer tick and connection event
    does to the whole state. The class in Dispatcher.dfy computes these functions in
    place; the theorems are about all runs of this machine. */
module Broker {
  import opened Wire
  import opened Peers
  import opened Topics
  import opened Registry
  import opened Calls
  import opened Codec

  /** fits decides whether a frame, serialized in a byte order, fits the buffer. */
  datatype Config = Config(fits: (Frame, bool) -> bool, monitorMode: bool)

  /** History of a forwarded call: the packet that asked for it and where it went. */
  datatype Forward = Forward(at: nat, caller: Id, cliid: int, target: Id)

  /** The dispatcher's own state. reqseq is the number of calls forwarded so far;
      step is the number of packets handled so far. */
  datatype Core = Core(
    cfg: Config,
    peers: PeerMap,
    topics: Topics,
    reg: Registry,
    calls: seq<PendingCall>,
    forwards: seq<Forward>,
    lastCmd: int,
    prio: nat,
    step: nat)

  /** A handler's result; a handler that fails has its sender closed. */
  datatype Outcome = Outcome(core: Core, ok: bool)

  // ---- handlers (src/disp.cc) ----

  function SendTo(s: Core, a: Id, f: Frame): Core { s.(peers := Send(s.peers, a, s.step, f)) }

  function TagOf(s: Core, a: Id): int { if a in s.peers then s.peers[a].tag else 0 }

  predicate Fits(s: Core, a: Id, f: Frame) { a in s.peers && s.cfg.fits(f, s.peers[a].net) }

  /** An adapter without a tag gets one from the pid it reports. */
  function SetTag(s: Core, a: Id, pid: int): Core {
    if a in s.peers && s.peers[a].tag == 0 then
      s.(peers := s.peers[a := s.peers[a].(tag := pid % TWO32)])
    else s
  }

  function ToMonitors(s: Core, f: Frame): Core {
    s.(peers := Broadcast(s.peers, s.reg.monitors.Keys, s.step, f, s.cfg.fits))
  }

  function AuthResult(s: Core, r: Request): int
    requires r.Auth?
  {
    if r.version < 3 then EAUTH
    else if IsMonitor(r.flags) then (if s.cfg.monitorMode then SUCCESS else EAUTH)
    else if NameTaken(s.reg, r.extra) then EDUPID
    else SUCCESS
  }

  /** Registration, before anything is written. */
  function Enroll(s: Core, a: Id, r: Request): (e: Core)
    requires r.Auth?
    ensures e == s.(peers := e.peers, reg := e.reg)
  {
    if r.version < 3 then s else
    var s := SetTag(s, a, r.pid);
    if AuthResult(s, r) != SUCCESS then s
    else if IsMonitor(r.flags) then s.(reg := AddMonitor(s.reg, a, r.extra, r.flags))
    else s.(reg := AddAdapter(s.reg, a, r.extra, r.flags, r.pid))
  }

  /** What monitors are told about a successful auth. */
  function Announce(s: Core, a: Id, flags: uint32): (e: Core)
    ensures e == s.(peers := e.peers)
  {
    if IsMonitor(flags) then
      var f := MonitorAll(Items(s.reg.infos));
      if Fits(s, a, f) then SendTo(s, a, f) else s
    else match Lookup(s.reg, a)
      case Some(i) => ToMonitors(s, MonitorAdd(ToItem(i)))
      case None => s
  }

  function HandleAuth(s: Core, a: Id, r: Request): (o: Outcome)
    requires r.Auth?
    ensures o.core == s.(peers := o.core.peers, reg := o.core.reg)
  {
    var result := AuthResult(s, r);
    var s1 := Enroll(s, a, r);
    var f := AuthResp(result, FLORA_VERSION);
    if !Fits(s1, a, f) then Outcome(s1, false) else
    var s2 := SendTo(s1, a, f);
    if result == SUCCESS then Outcome(Announce(s2, a, r.flags), true) else Outcome(s2, false)
  }

  function HandleSubscribe(s: Core, a: Id, name: string): (o: Outcome)
    ensures o.core == s.(peers := o.core.peers, topics := o.core.topics)
  {
    if name == "" then Outcome(s, false)
    else if a in Subscribers(s.topics, name) then Outcome(s, true)
    else
      var s1 := s.(topics := Add(s.topics, a, name));
      if name !in s.topics.persist then Outcome(s1, true) else
      var f := PostResp(PERSIST, name, s.topics.persist[name], 0, "");
      Outcome(if Fits(s1, a, f) then SendTo(s1, a, f) else s1, true)
  }

  function HandleUnsubscribe(s: Core, a: Id, name: string): Outcome {
    if name == "" then Outcome(s, false)
    else Outcome(s.(topics := s.topics.(subs := Prune(s.topics.subs, name, LiveSet(s.peers) - {a}))), true)
  }

  function HandleDeclare(s: Core, a: Id, name: string): Outcome
    requires a in s.reg.infos
  {
    if name == "" then Outcome(s, false) else
    var methods := s.reg.infos[a].methods;
    Outcome(s.(reg := SetMethods(s.reg, a, methods + {name})), name !in methods)
  }

  function HandleRemove(s: Core, a: Id, name: string): Outcome
    requires a in s.reg.infos
  {
    if name == "" then Outcome(s, false) else
    Outcome(s.(reg := SetMethods(s.reg, a, s.reg.infos[a].methods - {name})), true)
  }

  /** Closed subscribers are dropped from the list, open ones get one write each. */
  function HandlePost(s: Core, a: Id, msgtype: uint32, name: string, args: Caps): (o: Outcome)
    ensures o.core == s.(peers := o.core.peers, topics := o.core.topics)
  {
    if msgtype >= NUMBER_OF_MSGTYPE || name == "" then Outcome(s, false) else
    var f := PostResp(msgtype, name, args, TagOf(s, a), NameOf(s.reg, a));
    var subs := Prune(s.topics.subs, name, LiveSet(s.peers) * OpenSet(s.peers));
    var persist := if msgtype == PERSIST then s.topics.persist[name := args] else s.topics.persist;
    Outcome(s.(peers := Broadcast(s.peers, Audience(s.topics, name), s.step, f, s.cfg.fits), topics := Topics(subs, persist)), true)
  }

  function Deadline(now: int, timeout: uint32): int {
    now + if timeout == 0 then DEFAULT_CALL_TIMEOUT else timeout
  }

  function Callee(s: Core, target: string, name: string): Option<Id> {
    if target in s.reg.named && HasMethod(s.reg, s.reg.named[target], name)
    then Some(s.reg.named[target]) else None
  }

  function HandleCall(s: Core, a: Id, r: Request, now: int): (o: Outcome)
    requires r.Call?
    ensures o.core == s.(peers := o.core.peers, calls := o.core.calls, forwards := o.core.forwards)
  {
    match Callee(s, r.target, r.name)
    case None =>
      var f := ReplyResp(r.cliid, ENEXISTS, None, 0);
      if Fits(s, a, f) then Outcome(SendTo(s, a, f), true) else Outcome(s, false)
    case Some(t) =>
      var svrid := |s.forwards| + 1;
      var s1 := s.(forwards := s.forwards + [Forward(s.step, a, r.cliid, t)],
                   calls := Insert(s.calls, PendingCall(svrid, r.cliid, a, t, Deadline(now, r.timeout))));
      var f := CallResp(svrid, r.name, r.args, TagOf(s, a), NameOf(s.reg, a));
      if Fits(s1, t, f) then Outcome(SendTo(s1, t, f), true) else Outcome(s1, false)
  }

  /** Only the call's own target can answer it; a reply for a caller that has gone
      leaves the call to its timeout. */
  function HandleReply(s: Core, a: Id, r: Request): (o: Outcome)
    requires r.Reply?
    ensures o.core == s.(peers := o.core.peers, calls := o.core.calls)
  {
    var i := Find(s.calls, r.svrid, a);
    if i == |s.calls| || !IsOpen(s.peers, s.calls[i].sender) then Outcome(s, true) else
    var c := s.calls[i];
    var f := ReplyResp(c.cliid, SUCCESS, Some(Response(r.code, r.values, NameOf(s.reg, a))), TagOf(s, a));
    if !Fits(s, c.sender, f) then Outcome(s, false)
    else Outcome(SendTo(s, c.sender, f).(calls := RemoveAt(s.calls, i)), true)
  }

  function HandlePing(s: Core, a: Id): Outcome {
    if Fits(s, a, Pong) then Outcome(SendTo(s, a, Pong), true) else Outcome(s, false)
  }

  /** Everything but auth needs an ordinary registration. */
  function HandleRequest(s: Core, a: Id, r: Request, now: int): (o: Outcome)
    ensures o.core == s.(peers := o.core.peers, topics := o.core.topics, reg := o.core.reg,
                         calls := o.core.calls, forwards := o.core.forwards)
  {
    if r.Auth? then HandleAuth(s, a, r)
    else if a !in s.reg.infos then Outcome(s, false)
    else match r
      case Subscribe(name) => HandleSubscribe(s, a, name)
      case Unsubscribe(name) => HandleUnsubscribe(s, a, name)
      case Post(msgtype, name, args) => HandlePost(s, a, msgtype, name, args)
      case Reply(_, _, _) => HandleReply(s, a, r)
      case DeclareMethod(name) => HandleDeclare(s, a, name)
      case RemoveMethod(name) => HandleRemove(s, a, name)
      case Call(_, _, _, _, _) => HandleCall(s, a, r, now)
      case Ping => HandlePing(s, a)
  }

  const SWEEP_AFTER := 10000
  const SWEEP_COUNT := 50

  /** A sweep of expired subscribers, after ten quiet seconds or fifty departures. */
  function CheckSubscriptions(s: Core, now: int): (e: Core)
    ensures e == s.(topics := e.topics, prio := e.prio, lastCmd := e.lastCmd)
  {
    if now - s.lastCmd >= SWEEP_AFTER || s.prio + 1 >= SWEEP_COUNT then
      s.(topics := s.topics.(subs := Sweep(s.topics.subs, LiveSet(s.peers))), prio := 0, lastCmd := now)
    else s.(prio := s.prio + 1)
  }

  function DoErase(s: Core, a: Id, now: int): (e: Core)
    ensures e == s.(peers := e.peers, reg := Erase(s.reg, a), topics := e.topics, prio := e.prio, lastCmd := e.lastCmd)
  {
    match Lookup(s.reg, a)
    case None => s
    case Some(i) =>
      var s1 := if a in s.reg.monitors then s else ToMonitors(s, MonitorRemove(i.id));
      CheckSubscriptions(s1.(reg := Erase(s.reg, a)), now)
  }

  function Settle(o: Outcome, a: Id): PeerMap {
    if o.ok then o.core.peers else Shut(o.core.peers, a)
  }

  datatype Packet = Packet(from: Id, body: Option<Cells>)

  function Content(p: Packet): Parsed {
    if p.body.None? then NoCommand else ParseRequest(p.body.value)
  }

  /** A packet without a body reports that the connection is gone. */
  function HandleBody(s: Core, p: Packet, now: int): Core {
    match p.body
    case None => DoErase(s, p.from, now)
    case Some(cells) =>
      if p.from in s.reg.monitors then s.(peers := Shut(s.peers, p.from))
      else match ParseRequest(cells)
        case NoCommand => s.(peers := Shut(s.peers, p.from))
        case BadFields(_) => s.(peers := Shut(s.peers, p.from), lastCmd := now)
        case Good(r) =>
          var o := HandleRequest(s, p.from, r, now);
          o.core.(peers := Settle(o, p.from), lastCmd := now)
  }

  function Handle(s: Core, p: Packet, now: int): Core {
    HandleBody(s, p, now).(step := s.step + 1)
  }

  /** Tell the callers of the first n waiting calls that they timed out. */
  function TimeOut(ps: PeerMap, l: seq<PendingCall>, at: nat, n: nat): PeerMap
    requires n <= |l|
  {
    if n == 0 then ps
    else Send(TimeOut(ps, l, at, n - 1), l[n - 1].sender, at, ReplyResp(l[n - 1].cliid, ETIMEOUT, None, 0))
  }

  function Discard(s: Core, now: int): Core {
    var n := Overdue(s.calls, now);
    s.(peers := TimeOut(s.peers, s.calls, s.step, n), calls := s.calls[n..])
  }

  // ---- the machine: poll, queue and dispatcher ----

  /** adapters is the set the poll reads from; arrived and handled are histories. */
  datatype State = State(
    core: Core,
    adapters: set<Id>,
    queue: seq<Packet>,
    batch: seq<Packet>,
    arrived: seq<Packet>,
    handled: seq<Packet>)

  datatype Event =
    | Accept(a: Id, net: bool, tag: int, room: nat) // a new connection
    | Put(a: Id, cells: Cells)                      // a frame read from a connection
    | Delete(a: Id)                                 // the poll drops a connection
    | Vanish(a: Id)                                 // its last owning pointer goes
    | Tick(now: int)                                // the top of the dispatcher loop
    | Next(now: int)                                // one packet of the batch

  function Enqueue(s: State, p: Packet): State {
    s.(queue := s.queue + [p], arrived := s.arrived + [p])
  }

  function Drop(s: State, a: Id): State {
    var s := s.(adapters := s.adapters - {a}, core := s.core.(peers := Shut(s.core.peers, a)));
    if Lookup(s.core.reg, a).None? then s else Enqueue(s, Packet(a, None))
  }

  function TickStep(s: State, now: int): State {
    if s.batch != [] then s
    else if s.queue != [] then s.(batch := s.queue, queue := [])
    else s.(core := Discard(s.core, now))
  }

  predicate CanVanish(s: State, a: Id) {
    && a in s.core.peers && !s.core.peers[a].open && a !in s.adapters
    && (forall p | p in s.batch + s.queue :: p.from != a)
  }

  /** An event that is not possible in a state leaves the state as it is. */
  function Step(s: State, e: Event): State {
    match e
    case Accept(a, net, tag, room) =>
      if a in s.core.peers then s
      else s.(adapters := s.adapters + {a},
              core := s.core.(peers := s.core.peers[a := Peer(true, false, net, tag, room, [])]))
    case Put(a, cells) => if a in s.adapters then Enqueue(s, Packet(a, Some(cells))) else s
    case Delete(a) => if a in s.adapters then Drop(s, a) else s
    case Vanish(a) =>
      if CanVanish(s, a) then s.(core := s.core.(peers := s.core.peers[a := s.core.peers[a].(gone := true)]))
      else s
    case Tick(now) => TickStep(s, now)
    case Next(now) =>
      if s.batch == [] then s
      else s.(core := Handle(s.core, s.batch[0], now), batch := s.batch[1..], handled := s.handled + [s.batch[0]])
  }

  function Init(cfg: Config): State {
    State(Core(cfg, map[], Topics(map[], map[]), Registry(map[], map[], map[], 0), [], [], 0, 0, 0), {}, [], [], [], [])
  }

  /** The state after a sequence of events. */
  function Run(s: State, es: seq<Event>): State {
    if es == [] then s else Step(Run(s, es[..|es| - 1]), es[|es| - 1])
  }

  lemma RunNext(s: State, es: seq<Event>, i: nat)
    requires i < |es|
    ensures Run(s, es[..i + 1]) == Step(Run(s, es[..i]), es[i])
  {
    assert es[..i + 1][..i] == es[..i];
  }
}
