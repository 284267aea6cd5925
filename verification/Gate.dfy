/** The authentication gate over whole runs. */
module Gate {
  import opened Wire
  import opened Codec
  import opened Registry
  import opened Calls
  import opened Topics
  import opened Broker
  import opened Subscriptions
  import Agreement
  import Quiet

  /** The packet is an auth that registers its sender as a monitor. */
  predicate Watches(s: Core, p: Packet) {
    Content(p).Good? && p.from !in s.reg.monitors &&
    var r := Content(p).req;
    r.Auth? && IsMonitor(r.flags) && AuthResult(s, r) == SUCCESS
  }

  /** Who passes an auth as ordinary client in an event. */
  function NewClient(s: State, e: Event): set<Id> {
    if e.Next? && s.batch != [] && Agreement.Joins(s.core, s.batch[0]) then {s.batch[0].from} else {}
  }

  /** Who passes an auth as monitor in an event. */
  function NewMonitor(s: State, e: Event): set<Id> {
    if e.Next? && s.batch != [] && Watches(s.core, s.batch[0]) then {s.batch[0].from} else {}
  }

  /** Connections whose auth as ordinary client was handled, with result SUCCESS. */
  function Clients(cfg: Config, es: seq<Event>): set<Id> {
    if es == [] then {} else
    var n := |es| - 1;
    Clients(cfg, es[..n]) + NewClient(Run(Init(cfg), es[..n]), es[n])
  }

  /** Connections whose auth as monitor was handled, with result SUCCESS. */
  function Monitors(cfg: Config, es: seq<Event>): set<Id> {
    if es == [] then {} else
    var n := |es| - 1;
    Monitors(cfg, es[..n]) + NewMonitor(Run(Init(cfg), es[..n]), es[n])
  }

  /** A stored value was posted, as persistent, by a client. */
  ghost predicate PostedBy(h: seq<Packet>, who: set<Id>, name: string, args: Caps) {
    exists k :: 0 <= k < |h| && h[k].from in who && Content(h[k]) == Good(Post(PERSIST, name, args))
  }

  ghost predicate RegistryGated(r: Registry, who: set<Id>) {
    r.infos.Keys <= who && forall n | n in r.named :: r.named[n] in who
  }

  ghost predicate TopicsGated(t: Topics, h: seq<Packet>, who: set<Id>) {
    && (forall n, x | n in t.subs && x in t.subs[n] :: x in who)
    && (forall n | n in t.persist :: PostedBy(h, who, n, t.persist[n]))
  }

  ghost predicate CallsGated(l: seq<PendingCall>, who: set<Id>) {
    forall i | 0 <= i < |l| :: l[i].sender in who && l[i].target in who
  }

  /** Only clients appear anywhere in the dispatcher's tables. */
  ghost predicate Gated(s: Core, h: seq<Packet>, who: set<Id>) {
    RegistryGated(s.reg, who) && TopicsGated(s.topics, h, who) && CallsGated(s.calls, who)
  }

  lemma HandleRegistryGated(s: Core, p: Packet, now: int, who: set<Id>)
    requires RegistryGated(s.reg, who)
    ensures RegistryGated(Handle(s, p, now).reg, if Agreement.Joins(s, p) then who + {p.from} else who)
  {
    Agreement.HandleReg(s, p, now);
  }

  lemma HandleTopicsGated(s: Core, h: seq<Packet>, p: Packet, now: int, who: set<Id>)
    requires RegistryGated(s.reg, who) && TopicsGated(s.topics, h, who)
    ensures TopicsGated(Handle(s, p, now).topics, h + [p], who)
  {
    HandleTopics(s, p, now);
    var t := TopicsAfter(s, p, now);
    forall n, x | n in t.subs && x in t.subs[n] ensures x in who {
      Members(s, p, now, n, x);
    }
    forall n | n in t.persist ensures PostedBy(h + [p], who, n, t.persist[n]) {
      PersistGated(s, h, p, now, who, n);
    }
  }

  lemma PersistGated(s: Core, h: seq<Packet>, p: Packet, now: int, who: set<Id>, n: string)
    requires s.reg.infos.Keys <= who && n in TopicsAfter(s, p, now).persist
    requires n in s.topics.persist ==> PostedBy(h, who, n, s.topics.persist[n])
    ensures PostedBy(h + [p], who, n, TopicsAfter(s, p, now).persist[n])
  {
    var args := TopicsAfter(s, p, now).persist[n];
    if n in s.topics.persist && args == s.topics.persist[n] {
      var k :| 0 <= k < |h| && h[k].from in who && Content(h[k]) == Good(Post(PERSIST, n, args));
      assert (h + [p])[k] == h[k];
    } else {
      assert (h + [p])[|h|] == p;
    }
  }

  lemma HandleCallsGated(s: Core, p: Packet, now: int, who: set<Id>)
    requires RegistryGated(s.reg, who) && CallsGated(s.calls, who)
    ensures CallsGated(Handle(s, p, now).calls, who)
  {
    if !Quiet.CallOrReply(p) {
      Quiet.OtherPackets(s, p, now);
    } else if Content(p).req.Call? {
      if p.from in s.reg.infos { ForwardGated(s, p.from, Content(p).req, now, who); }
    } else {
      AnswerGated(s, p.from, Content(p).req, who);
    }
  }

  lemma ForwardGated(s: Core, a: Id, r: Request, now: int, who: set<Id>)
    requires r.Call? && a in who && RegistryGated(s.reg, who) && CallsGated(s.calls, who)
    ensures CallsGated(HandleCall(s, a, r, now).core.calls, who)
  {}

  lemma AnswerGated(s: Core, a: Id, r: Request, who: set<Id>)
    requires r.Reply? && CallsGated(s.calls, who)
    ensures CallsGated(HandleReply(s, a, r).core.calls, who)
  {}

  lemma Wider(s: Core, h: seq<Packet>, who: set<Id>, more: set<Id>)
    requires who <= more && TopicsGated(s.topics, h, who) && CallsGated(s.calls, who)
    ensures TopicsGated(s.topics, h, more) && CallsGated(s.calls, more)
  {}

  lemma StepGated(s: State, e: Event, who: set<Id>)
    requires Gated(s.core, s.handled, who)
    ensures Gated(Step(s, e).core, Step(s, e).handled, who + NewClient(s, e))
  {
    if e.Next? && s.batch != [] {
      var p := s.batch[0];
      HandleRegistryGated(s.core, p, e.now, who);
      HandleTopicsGated(s.core, s.handled, p, e.now, who);
      HandleCallsGated(s.core, p, e.now, who);
      Wider(Handle(s.core, p, e.now), s.handled + [p], who, who + NewClient(s, e));
      assert !Agreement.Joins(s.core, p) ==> who + NewClient(s, e) == who;
    } else {
      assert who + NewClient(s, e) == who;
    }
  }

  /** A connection that never passed an auth as a client is in no subscription list, no
      waiting call, no index and no registry, and no stored value is its own. */
  lemma {:induction false} RunGated(cfg: Config, es: seq<Event>)
    ensures Gated(Run(Init(cfg), es).core, Run(Init(cfg), es).handled, Clients(cfg, es))
  {
    if es != [] {
      var n := |es| - 1;
      RunGated(cfg, es[..n]);
      StepGated(Run(Init(cfg), es[..n]), es[n], Clients(cfg, es[..n]));
    }
  }

  // ---- monitors ----

  /** A connection that passed an auth, as client or monitor, does not authenticate
      again. */
  ghost predicate AuthOnce(cfg: Config, es: seq<Event>) {
    forall i | 0 <= i < |es| :: AuthFresh(cfg, es[..i], es[i])
  }

  ghost predicate AuthFresh(cfg: Config, es: seq<Event>, e: Event) {
    var t := Run(Init(cfg), es);
    e.Next? && t.batch != [] && Content(t.batch[0]).Good? && Content(t.batch[0]).req.Auth? ==>
      t.batch[0].from !in Clients(cfg, es) && t.batch[0].from !in Monitors(cfg, es)
  }

  lemma AuthOnceShorter(cfg: Config, es: seq<Event>)
    requires es != [] && AuthOnce(cfg, es)
    ensures AuthOnce(cfg, es[..|es| - 1]) && AuthFresh(cfg, es[..|es| - 1], es[|es| - 1])
  {
    var n := |es| - 1;
    forall i | 0 <= i < n ensures AuthFresh(cfg, es[..n][..i], es[..n][i]) {
      assert es[..n][..i] == es[..i];
      assert AuthFresh(cfg, es[..i], es[i]);
    }
  }

  lemma MonitorsGrow(s: State, e: Event)
    ensures Step(s, e).core.reg.monitors.Keys <= s.core.reg.monitors.Keys + NewMonitor(s, e)
  {
    if e.Next? && s.batch != [] { Agreement.HandleReg(s.core, s.batch[0], e.now); }
  }

  /** Only a connection that passed an auth as a monitor is ever listed as one. */
  lemma {:induction false} MonitorsGated(cfg: Config, es: seq<Event>)
    ensures Run(Init(cfg), es).core.reg.monitors.Keys <= Monitors(cfg, es)
  {
    if es != [] {
      var n := |es| - 1;
      MonitorsGated(cfg, es[..n]);
      MonitorsGrow(Run(Init(cfg), es[..n]), es[n]);
    }
  }

  lemma {:induction false} Apart(cfg: Config, es: seq<Event>)
    requires AuthOnce(cfg, es)
    ensures Clients(cfg, es) !! Monitors(cfg, es)
  {
    if es != [] {
      AuthOnceShorter(cfg, es);
      Apart(cfg, es[..|es| - 1]);
    }
  }

  /** If connections authenticate once, no monitor ever subscribes, calls, is called,
      holds a name or is listed as a client. */
  lemma MonitorsAside(cfg: Config, es: seq<Event>, m: Id)
    requires AuthOnce(cfg, es) && m in Monitors(cfg, es)
    ensures var s := Run(Init(cfg), es).core;
            && m !in s.reg.infos
            && (forall n | n in s.reg.named :: s.reg.named[n] != m)
            && (forall n | n in s.topics.subs :: m !in s.topics.subs[n])
            && (forall i | 0 <= i < |s.calls| :: s.calls[i].sender != m && s.calls[i].target != m)
  {
    Apart(cfg, es);
    RunGated(cfg, es);
  }
}
